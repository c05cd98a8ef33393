/** lib/validators.ts: the request schemas, each as a parse of the JSON body
    into typed data or a thrown error. Reading the body (`req.json()`) is
    folded in: a body that is not JSON throws a SyntaxError, a body that is
    JSON but does not fit the schema throws a ZodError. */
module Validators {
  import opened Wrappers
  import opened Js
  import opened Domain
  import Api

  /** The format checks zod supplies (`.email()`, `.url()`, `.datetime()`)
      and membership in the store's ServiceType enum, none of which is
      modelled in detail. */
  datatype Formats = Formats(
    isEmail: string -> bool,
    isUrl: string -> bool,
    isDatetime: string -> bool,
    isServiceType: string -> bool)

  /** The error `req.json()` throws on a body that is not JSON. */
  const JsonSyntaxError: Api.Thrown := Api.Error(Api.SyntaxError, "Unexpected token in JSON")

  type Fields = map<string, JsonValue>

  /** `z.string().min(lo)`, with `.max(hi)` when `hi` is given. */
  predicate StringIn(f: Fields, k: string, lo: nat, hi: Option<nat>)
  {
    && k in f
    && f[k].JString?
    && lo <= Utf16Length(f[k].s)
    && (hi.Some? ==> Utf16Length(f[k].s) <= hi.value)
  }

  /** The same with `.optional()`: absent, or present and valid. */
  predicate OptionalStringIn(f: Fields, k: string, lo: nat, hi: Option<nat>)
  {
    k !in f || StringIn(f, k, lo, hi)
  }

  /** A string satisfying a format check. */
  predicate StringWith(f: Fields, k: string, format: string -> bool)
  {
    k in f && f[k].JString? && format(f[k].s)
  }

  predicate OptionalStringWith(f: Fields, k: string, format: string -> bool)
  {
    k !in f || StringWith(f, k, format)
  }

  /** `z.enum([...])`. */
  predicate EnumIn(f: Fields, k: string, values: set<string>)
  {
    k in f && f[k].JString? && f[k].s in values
  }

  predicate OptionalEnumIn(f: Fields, k: string, values: set<string>)
  {
    k !in f || EnumIn(f, k, values)
  }

  /** The value of an optional string field already checked. */
  function OptionalString(f: Fields, k: string): (r: Option<string>)
    requires k in f ==> f[k].JString?
    ensures r.Some? <==> k in f
    ensures r.Some? ==> r.value == f[k].s
  {
    if k in f then Some(f[k].s) else None
  }

  /** The error a failed parse throws. */
  function ParseError(body: RequestBody): (e: Api.Thrown)
    ensures body.Malformed? ==> e == JsonSyntaxError
    ensures !body.Malformed? ==> e.Error? && e.cls == Api.ZodError
  {
    if body.Malformed? then JsonSyntaxError else Api.SchemaFailure("invalid payload")
  }

  const RoleNames: set<string> := {"ADMIN", "UTLEIER", "TJENESTE"}

  function RoleNamed(s: string): Role
    requires s in RoleNames
  {
    if s == "ADMIN" then Role.ADMIN else if s == "UTLEIER" then Role.UTLEIER else Role.TJENESTE
  }

  // ----- registerSchema -----

  /** The role a sign-up may ask for; BEGGE ("both") asks for both capabilities. */
  datatype SignupRole = UTLEIER | TJENESTE | BEGGE

  const SignupRoleNames: set<string> := {"UTLEIER", "TJENESTE", "BEGGE"}

  function SignupRoleNamed(s: string): SignupRole
    requires s in SignupRoleNames
  {
    if s == "UTLEIER" then SignupRole.UTLEIER else if s == "TJENESTE" then SignupRole.TJENESTE else SignupRole.BEGGE
  }

  datatype RegisterData = RegisterData(name: string, email: string, password: string, role: Option<SignupRole>)

  predicate RegisterFits(f: Fields, fmt: Formats)
  {
    && StringIn(f, "name", 2, None)
    && StringWith(f, "email", fmt.isEmail)
    && StringIn(f, "password", 8, None)
    && OptionalEnumIn(f, "role", SignupRoleNames)
  }

  function ParseRegister(body: RequestBody, fmt: Formats): (r: Result<RegisterData, Api.Thrown>)
    ensures r.Success? <==> body.Object? && RegisterFits(body.fields, fmt)
    ensures r.Failure? ==> r.error == ParseError(body)
    ensures r.Success? ==>
      && Utf16Length(r.value.name) >= 2
      && Utf16Length(r.value.password) >= 8
      && fmt.isEmail(r.value.email)
      && r.value.name == body.fields["name"].s
      && r.value.email == body.fields["email"].s
      && r.value.password == body.fields["password"].s
      && (r.value.role.None? <==> "role" !in body.fields)
      && (r.value.role.Some? ==> body.fields["role"].s in SignupRoleNames)
      && (r.value.role.Some? ==> r.value.role.value == SignupRoleNamed(body.fields["role"].s))
  {
    if body.Object? && RegisterFits(body.fields, fmt) then
      var f := body.fields;
      var role := if "role" in f then Some(SignupRoleNamed(f["role"].s)) else None;
      Success(RegisterData(f["name"].s, f["email"].s, f["password"].s, role))
    else Failure(ParseError(body))
  }

  /** ADMIN cannot be requested at sign-up. */
  lemma RegisterRejectsAdmin(body: RequestBody, fmt: Formats)
    requires body.Object? && "role" in body.fields && body.fields["role"] == JString("ADMIN")
    ensures ParseRegister(body, fmt).Failure?
  {
    assert "ADMIN" !in SignupRoleNames;
  }

  // ----- userCreateSchema, userUpdateSchema -----

  datatype UserCreateData = UserCreateData(name: string, email: string, password: string, role: Role)

  predicate UserCreateFits(f: Fields, fmt: Formats)
  {
    && StringIn(f, "name", 2, None)
    && StringWith(f, "email", fmt.isEmail)
    && StringIn(f, "password", 8, None)
    && EnumIn(f, "role", RoleNames)
  }

  function ParseUserCreate(body: RequestBody, fmt: Formats): (r: Result<UserCreateData, Api.Thrown>)
    ensures r.Success? <==> body.Object? && UserCreateFits(body.fields, fmt)
    ensures r.Failure? ==> r.error == ParseError(body)
    ensures r.Success? ==>
      && Utf16Length(r.value.name) >= 2
      && Utf16Length(r.value.password) >= 8
      && fmt.isEmail(r.value.email)
      && r.value.role == RoleNamed(body.fields["role"].s)
      && r.value.name == body.fields["name"].s
      && r.value.email == body.fields["email"].s
      && r.value.password == body.fields["password"].s
  {
    if body.Object? && UserCreateFits(body.fields, fmt) then
      var f := body.fields;
      Success(UserCreateData(f["name"].s, f["email"].s, f["password"].s, RoleNamed(f["role"].s)))
    else Failure(ParseError(body))
  }

  datatype UserUpdateData = UserUpdateData(name: Option<string>, role: Option<Role>, isActive: Option<bool>)

  predicate UserUpdateFits(f: Fields)
  {
    && OptionalStringIn(f, "name", 2, None)
    && OptionalEnumIn(f, "role", RoleNames)
    && ("isActive" in f ==> f["isActive"].JBool?)
  }

  function ParseUserUpdate(body: RequestBody): (r: Result<UserUpdateData, Api.Thrown>)
    ensures r.Success? <==> body.Object? && UserUpdateFits(body.fields)
    ensures r.Failure? ==> r.error == ParseError(body)
    ensures r.Success? ==>
      && (r.value.name.Some? ==> Utf16Length(r.value.name.value) >= 2)
      && (r.value.name.Some? <==> "name" in body.fields)
      && (r.value.role.Some? <==> "role" in body.fields)
      && (r.value.isActive.Some? <==> "isActive" in body.fields)
      && r.value.name == OptionalString(body.fields, "name")
      && (r.value.role.Some? ==> r.value.role.value == RoleNamed(body.fields["role"].s))
      && (r.value.isActive.Some? ==> r.value.isActive.value == body.fields["isActive"].b)
  {
    if body.Object? && UserUpdateFits(body.fields) then
      var f := body.fields;
      Success(UserUpdateData(
        OptionalString(f, "name"),
        if "role" in f then Some(RoleNamed(f["role"].s)) else None,
        if "isActive" in f then Some(f["isActive"].b) else None))
    else Failure(ParseError(body))
  }

  // ----- modeSwitchSchema -----

  function ParseModeSwitch(body: RequestBody): (r: Result<ProfileMode, Api.Thrown>)
    ensures r.Success? <==> body.Object? && EnumIn(body.fields, "mode", {"UTLEIER", "TJENESTE"})
    ensures r.Failure? ==> r.error == ParseError(body)
    ensures r == Success(ProfileMode.UTLEIER) <==> body.Object? && "mode" in body.fields && body.fields["mode"] == JString("UTLEIER")
    ensures r == Success(ProfileMode.TJENESTE) <==> body.Object? && "mode" in body.fields && body.fields["mode"] == JString("TJENESTE")
  {
    if body.Object? && EnumIn(body.fields, "mode", {"UTLEIER", "TJENESTE"}) then
      if body.fields["mode"].s == "UTLEIER" then Success(ProfileMode.UTLEIER) else Success(ProfileMode.TJENESTE)
    else Failure(ParseError(body))
  }

  // ----- orderCreateSchema, orderUpdateSchema -----

  datatype OrderCreateData = OrderCreateData(serviceType: string, address: string, date: string, note: Option<string>)

  predicate OrderCreateFits(f: Fields, fmt: Formats)
  {
    && StringWith(f, "type", fmt.isServiceType)
    && StringIn(f, "address", 3, None)
    && StringWith(f, "date", fmt.isDatetime)
    && OptionalStringIn(f, "note", 0, Some(500))
  }

  function ParseOrderCreate(body: RequestBody, fmt: Formats): (r: Result<OrderCreateData, Api.Thrown>)
    ensures r.Success? <==> body.Object? && OrderCreateFits(body.fields, fmt)
    ensures r.Failure? ==> r.error == ParseError(body)
    ensures r.Success? ==>
      && Utf16Length(r.value.address) >= 3
      && (r.value.note.Some? ==> Utf16Length(r.value.note.value) <= 500)
      && fmt.isServiceType(r.value.serviceType)
      && fmt.isDatetime(r.value.date)
      && r.value.serviceType == body.fields["type"].s
      && r.value.address == body.fields["address"].s
      && r.value.date == body.fields["date"].s
      && r.value.note == OptionalString(body.fields, "note")
  {
    if body.Object? && OrderCreateFits(body.fields, fmt) then
      var f := body.fields;
      Success(OrderCreateData(f["type"].s, f["address"].s, f["date"].s, OptionalString(f, "note")))
    else Failure(ParseError(body))
  }

  const StatusNames: set<string> := {"PENDING", "IN_PROGRESS", "COMPLETED"}

  function StatusNamed(s: string): OrderStatus
    requires s in StatusNames
  {
    if s == "PENDING" then OrderStatus.PENDING
    else if s == "IN_PROGRESS" then OrderStatus.IN_PROGRESS
    else OrderStatus.COMPLETED
  }

  datatype OrderUpdateData = OrderUpdateData(status: Option<OrderStatus>, address: Option<string>, date: Option<string>, note: Option<string>)

  predicate OrderUpdateFits(f: Fields, fmt: Formats)
  {
    && OptionalEnumIn(f, "status", StatusNames)
    && OptionalStringIn(f, "address", 3, None)
    && OptionalStringWith(f, "date", fmt.isDatetime)
    && OptionalStringIn(f, "note", 0, Some(500))
  }

  function ParseOrderUpdate(body: RequestBody, fmt: Formats): (r: Result<OrderUpdateData, Api.Thrown>)
    ensures r.Success? <==> body.Object? && OrderUpdateFits(body.fields, fmt)
    ensures r.Failure? ==> r.error == ParseError(body)
    ensures r.Success? ==>
      && (r.value.address.Some? ==> Utf16Length(r.value.address.value) >= 3)
      && (r.value.note.Some? ==> Utf16Length(r.value.note.value) <= 500)
      && (r.value.date.Some? ==> fmt.isDatetime(r.value.date.value))
      && (r.value.status.Some? <==> "status" in body.fields)
      && (r.value.status.Some? ==> r.value.status.value == StatusNamed(body.fields["status"].s))
      && r.value.address == OptionalString(body.fields, "address")
      && r.value.date == OptionalString(body.fields, "date")
      && r.value.note == OptionalString(body.fields, "note")
  {
    if body.Object? && OrderUpdateFits(body.fields, fmt) then
      var f := body.fields;
      Success(OrderUpdateData(
        if "status" in f then Some(StatusNamed(f["status"].s)) else None,
        OptionalString(f, "address"),
        OptionalString(f, "date"),
        OptionalString(f, "note")))
    else Failure(ParseError(body))
  }

  /** An empty object is a valid order update: every field is optional. */
  lemma EmptyOrderUpdateAccepted(fmt: Formats)
    ensures ParseOrderUpdate(Object(map[]), fmt) == Success(OrderUpdateData(None, None, None, None))
  {
  }

  // ----- assignSchema -----

  function ParseAssign(body: RequestBody): (r: Result<string, Api.Thrown>)
    ensures r.Success? <==> body.Object? && StringIn(body.fields, "assignedToId", 1, None)
    ensures r.Failure? ==> r.error == ParseError(body)
    ensures r.Success? ==> r.value != "" && r.value == body.fields["assignedToId"].s
  {
    if body.Object? && StringIn(body.fields, "assignedToId", 1, None) then
      Success(body.fields["assignedToId"].s)
    else Failure(ParseError(body))
  }

  // ----- imageCreateSchema -----

  datatype ImageCreateData = ImageCreateData(orderId: string, url: string, caption: Option<string>, kind: Option<string>)

  predicate ImageCreateFits(f: Fields, fmt: Formats)
  {
    && StringIn(f, "orderId", 1, None)
    && StringWith(f, "url", fmt.isUrl)
    && OptionalStringIn(f, "caption", 0, Some(200))
    && OptionalEnumIn(f, "kind", {"before", "after"})
  }

  function ParseImageCreate(body: RequestBody, fmt: Formats): (r: Result<ImageCreateData, Api.Thrown>)
    ensures r.Success? <==> body.Object? && ImageCreateFits(body.fields, fmt)
    ensures r.Failure? ==> r.error == ParseError(body)
    ensures r.Success? ==>
      && r.value.orderId != ""
      && fmt.isUrl(r.value.url)
      && (r.value.caption.Some? ==> Utf16Length(r.value.caption.value) <= 200)
      && (r.value.kind.Some? ==> r.value.kind.value in {"before", "after"})
      && r.value.orderId == body.fields["orderId"].s
      && r.value.url == body.fields["url"].s
      && r.value.caption == OptionalString(body.fields, "caption")
      && r.value.kind == OptionalString(body.fields, "kind")
  {
    if body.Object? && ImageCreateFits(body.fields, fmt) then
      var f := body.fields;
      Success(ImageCreateData(f["orderId"].s, f["url"].s, OptionalString(f, "caption"), OptionalString(f, "kind")))
    else Failure(ParseError(body))
  }

  // ----- commentCreateSchema -----

  datatype CommentCreateData = CommentCreateData(imageId: string, text: string)

  predicate CommentCreateFits(f: Fields)
  {
    StringIn(f, "imageId", 1, None) && StringIn(f, "text", 1, Some(300))
  }

  function ParseCommentCreate(body: RequestBody): (r: Result<CommentCreateData, Api.Thrown>)
    ensures r.Success? <==> body.Object? && CommentCreateFits(body.fields)
    ensures r.Failure? ==> r.error == ParseError(body)
    ensures r.Success? ==>
      && r.value.imageId != ""
      && 1 <= Utf16Length(r.value.text) <= 300
      && r.value == CommentCreateData(body.fields["imageId"].s, body.fields["text"].s)
  {
    if body.Object? && CommentCreateFits(body.fields) then
      Success(CommentCreateData(body.fields["imageId"].s, body.fields["text"].s))
    else Failure(ParseError(body))
  }

  // ----- notificationCreateSchema -----

  datatype NotificationCreateData = NotificationCreateData(userId: string, message: string)

  predicate NotificationCreateFits(f: Fields)
  {
    StringIn(f, "userId", 1, None) && StringIn(f, "message", 1, Some(240))
  }

  function ParseNotificationCreate(body: RequestBody): (r: Result<NotificationCreateData, Api.Thrown>)
    ensures r.Success? <==> body.Object? && NotificationCreateFits(body.fields)
    ensures r.Failure? ==> r.error == ParseError(body)
    ensures r.Success? ==>
      && r.value.userId != ""
      && 1 <= Utf16Length(r.value.message) <= 240
      && r.value == NotificationCreateData(body.fields["userId"].s, body.fields["message"].s)
  {
    if body.Object? && NotificationCreateFits(body.fields) then
      Success(NotificationCreateData(body.fields["userId"].s, body.fields["message"].s))
    else Failure(ParseError(body))
  }

  /** Every parse failure ends as 500 in a handler that passes it to
      `handleApiError`. */
  lemma ParseErrorIs500<T>(body: RequestBody)
    ensures Api.HandleApiError<T>(ParseError(body)).status == 500
  {
    if body.Malformed? {
      assert JsonSyntaxError.message[0] == 'U' && Api.UnauthorizedMarker[1] == 'N';
    } else {
      Api.SchemaFailureIs500<T>("invalid payload");
    }
  }
}
