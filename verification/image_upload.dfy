/** app/api/images/upload/route.ts: a worker or admin uploads a file for an
    order as multipart form data. */
module ImageUpload {
  import opened Wrappers
  import opened Domain
  import Rbac
  import Upload
  import Images
  import Api

  /** A form entry: text or a file. */
  datatype FormValue = FText(s: string) | FFile(file: Upload.File)

  /** `String(formData.get(k) ?? "")`. */
  function FieldString(form: map<string, FormValue>, k: string): string
  {
    if k !in form then ""
    else match form[k]
      case FText(s) => s
      case FFile(_) => "[object File]"
  }

  /** `!file`: no entry, or an empty text entry. */
  predicate FileMissing(form: map<string, FormValue>)
  {
    "file" !in form || form["file"] == FText("")
  }

  /** `x || undefined` on a form string. */
  function NonEmpty(s: string): (r: Option<string>)
    ensures r.None? <==> s == ""
    ensures r.Some? ==> r.value == s
  {
    if s == "" then None else Some(s)
  }

  /** The error `req.formData()` throws on a body that is not form data, and
      the one `saveUpload` throws when the "file" entry is text. */
  const NotFormData: Api.Thrown := Api.Error(Api.TypeError, "Could not parse content as FormData.")
  const NotAFile: Api.Thrown := Api.Error(Api.TypeError, "file.arrayBuffer is not a function")

  /** `POST /api/images/upload`. `form` is None when the body is not form data;
      `now` and `base64` are passed on to `saveUpload`. */
  function Post(session: Option<SessionUser>, store: Store, form: Option<map<string, FormValue>>,
                env: Upload.Env, now: nat, base64: seq<Upload.Byte> -> string, stamp: Stamp): (out: Outcome<Image>)
    ensures Rbac.RequireAuth(session, store.users).Success? &&
            Rbac.RequireAuth(session, store.users).value.role == Role.UTLEIER ==>
      out == Outcome(Api.ApiError(403, "Only admin/worker can upload files"), store)
    ensures Rbac.RequireAuth(session, store.users).Failure? ==>
      out == Outcome(Api.HandleApiError(Rbac.RequireAuth(session, store.users).error), store)
    ensures Rbac.RequireAuth(session, store.users).Success? &&
            Rbac.RequireAuth(session, store.users).value.role != Role.UTLEIER && form.None? ==>
      out == Outcome(Api.HandleApiError(NotFormData), store)
    ensures Rbac.RequireAuth(session, store.users).Success? &&
            Rbac.RequireAuth(session, store.users).value.role != Role.UTLEIER && form.Some? &&
            !FileMissing(form.value) && FieldString(form.value, "orderId") != "" ==>
      var caller := Rbac.RequireAuth(session, store.users).value;
      var f := form.value;
      var orderId := FieldString(f, "orderId");
      && (FindOrder(store.orders, orderId).None? ==> out == Outcome(Api.ApiError(404, "Order not found"), store))
      && (FindOrder(store.orders, orderId).Some? && !Images.MayAttach(caller.role, caller.id, FindOrder(store.orders, orderId).value) ==>
            out == Outcome(Api.ApiError(403, "Not assigned to order"), store))
      && (FindOrder(store.orders, orderId).Some? && Images.MayAttach(caller.role, caller.id, FindOrder(store.orders, orderId).value) ==>
            if f["file"].FFile? then
              out.response == Api.Created(Image(stamp.id, orderId, Upload.SaveUpload(env, f["file"].file, now, base64),
                                                NonEmpty(FieldString(f, "caption")), NonEmpty(FieldString(f, "kind")),
                                                caller.id, stamp.at))
            else out == Outcome(Api.HandleApiError(NotAFile), store))
    ensures out.response.status != 201 ==> out.store == store
    ensures out.response.status == 201 ==>
      && Rbac.RequireAuth(session, store.users).Success?
      && form.Some? && "file" in form.value && form.value["file"].FFile?
      && FieldString(form.value, "orderId") != ""
    ensures out.response.status == 201 ==>
      var caller := Rbac.RequireAuth(session, store.users).value;
      var f := form.value;
      var orderId := FieldString(f, "orderId");
      && FindOrder(store.orders, orderId).Some?
      && Images.MayAttach(caller.role, caller.id, FindOrder(store.orders, orderId).value)
      && out.store == store.(images := store.images + [
           Image(stamp.id, orderId, Upload.SaveUpload(env, f["file"].file, now, base64),
                 NonEmpty(FieldString(f, "caption")), NonEmpty(FieldString(f, "kind")), caller.id, stamp.at)])
  {
    match Rbac.RequireAuth(session, store.users)
    case Failure(e) => Outcome(Api.HandleApiError(e), store)
    case Success(caller) =>
      if caller.role !in [Role.ADMIN, Role.TJENESTE] then
        Outcome(Api.ApiError(403, "Only admin/worker can upload files"), store)
      else if form.None? then Outcome(Api.HandleApiError(NotFormData), store)
      else
        var f := form.value;
        var orderId := FieldString(f, "orderId");
        if FileMissing(f) || orderId == "" then Outcome(Api.ApiError(400, "Missing file/orderId"), store)
        else
          match FindOrder(store.orders, orderId)
          case None => Outcome(Api.ApiError(404, "Order not found"), store)
          case Some(o) =>
            if caller.role == Role.TJENESTE && o.assignedToId != Some(caller.id) then
              Outcome(Api.ApiError(403, "Not assigned to order"), store)
            else
              match f["file"]
              case FText(_) => Outcome(Api.HandleApiError(NotAFile), store)
              case FFile(file) =>
                var url := Upload.SaveUpload(env, file, now, base64);
                var x := Image(stamp.id, orderId, url, NonEmpty(FieldString(f, "caption")),
                               NonEmpty(FieldString(f, "kind")), caller.id, stamp.at);
                Outcome(Api.Created(x), store.(images := store.images + [x]))
  }

  /** A worker not assigned to the order is refused before anything is saved. */
  lemma UnassignedWorkerRefused(session: Option<SessionUser>, store: Store, form: map<string, FormValue>,
                                env: Upload.Env, now: nat, base64: seq<Upload.Byte> -> string, stamp: Stamp)
    requires Rbac.RequireAuth(session, store.users).Success?
    requires Rbac.RequireAuth(session, store.users).value.role == Role.TJENESTE
    requires !FileMissing(form) && FieldString(form, "orderId") != ""
    requires FindOrder(store.orders, FieldString(form, "orderId")).Some?
    requires FindOrder(store.orders, FieldString(form, "orderId")).value.assignedToId
             != Some(Rbac.RequireAuth(session, store.users).value.id)
    ensures Post(session, store, Some(form), env, now, base64, stamp)
            == Outcome(Api.ApiError(403, "Not assigned to order"), store)
  {
  }

  /** A missing file or order id is a 400. */
  lemma MissingFieldsAre400(session: Option<SessionUser>, store: Store, form: map<string, FormValue>,
                            env: Upload.Env, now: nat, base64: seq<Upload.Byte> -> string, stamp: Stamp)
    requires Rbac.RequireAuth(session, store.users).Success?
    requires Rbac.RequireAuth(session, store.users).value.role != Role.UTLEIER
    requires FileMissing(form) || FieldString(form, "orderId") == ""
    ensures Post(session, store, Some(form), env, now, base64, stamp).response.status == 400
  {
  }
}
