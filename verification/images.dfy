/** app/api/images/route.ts: listing an order's images and attaching an image
    by URL. */
module Images {
  import opened Wrappers
  import opened Js
  import opened Domain
  import Listing
  import Rbac
  import Validators
  import Orders
  import Api

  /** Who may list an order's images: an admin, the order's landlord acting as
      landlord, or its assignee acting as worker. */
  predicate MayView(role: Role, callerId: string, o: Order)
  {
    || role == Role.ADMIN
    || (role == Role.UTLEIER && o.landlordId == callerId)
    || (role == Role.TJENESTE && o.assignedToId == Some(callerId))
  }

  /** Who may attach an image: admins and workers, and a worker only on an
      order assigned to it. */
  predicate MayAttach(role: Role, callerId: string, o: Order)
  {
    role == Role.ADMIN || (role == Role.TJENESTE && o.assignedToId == Some(callerId))
  }

  function ImagesOf(images: seq<Image>, orderId: string): (r: seq<Image>)
    ensures forall i :: 0 <= i < |r| ==> r[i].orderId == orderId
    ensures forall x :: multiset(r)[x] == if x.orderId == orderId then multiset(images)[x] else 0
    ensures Listing.SortedBy(r, ImageCreatedAt, Listing.Descending)
  {
    var own := Listing.Filter(images, (x: Image) => x.orderId == orderId);
    var sorted := Listing.SortBy(own, ImageCreatedAt, Listing.Descending);
    assert forall i :: 0 <= i < |sorted| ==> sorted[i].orderId == orderId by {
      forall i | 0 <= i < |sorted| ensures sorted[i].orderId == orderId {
        assert sorted[i] in multiset(own);
      }
    }
    sorted
  }

  /** `GET /api/images?orderId=...`. */
  function Get(session: Option<SessionUser>, store: Store, orderId: Option<string>): (r: Api.Response<seq<Image>>)
    ensures Rbac.RequireAuth(session, store.users).Failure? ==>
      r == Api.HandleApiError(Rbac.RequireAuth(session, store.users).error)
    ensures Rbac.RequireAuth(session, store.users).Failure? ==> r.status == 401
    ensures Rbac.RequireAuth(session, store.users).Success? && (orderId.None? || orderId.value == "") ==>
      r == Api.ApiError(400, "Missing orderId")
    ensures (Rbac.RequireAuth(session, store.users).Success? && orderId.Some? && orderId.value != ""
             && FindOrder(store.orders, orderId.value).None?) ==> r == Api.ApiError(404, "Order not found")
    ensures r.status == 200 <==>
      && Rbac.RequireAuth(session, store.users).Success?
      && orderId.Some? && FindOrder(store.orders, orderId.value).Some?
      && orderId.value != ""
      && MayView(Rbac.RequireAuth(session, store.users).value.role, Rbac.RequireAuth(session, store.users).value.id,
                 FindOrder(store.orders, orderId.value).value)
    ensures r.status == 200 ==> r.body == Api.Json(ImagesOf(store.images, orderId.value))
    ensures Rbac.RequireAuth(session, store.users).Success? && r.status != 200 ==> r.status in {400, 403, 404}
    ensures (Rbac.RequireAuth(session, store.users).Success? && orderId.Some? && orderId.value != ""
             && FindOrder(store.orders, orderId.value).Some?
             && !MayView(Rbac.RequireAuth(session, store.users).value.role, Rbac.RequireAuth(session, store.users).value.id,
                         FindOrder(store.orders, orderId.value).value)) ==> r == Api.ApiError(403, "Forbidden")
  {
    match Rbac.RequireAuth(session, store.users)
    case Failure(e) => Api.HandleApiError(e)
    case Success(caller) =>
      if orderId.None? || orderId.value == "" then Api.ApiError(400, "Missing orderId")
      else
        match FindOrder(store.orders, orderId.value)
        case None => Api.ApiError(404, "Order not found")
        case Some(o) =>
          if !MayView(caller.role, caller.id, o) then Api.ApiError(403, "Forbidden")
          else Api.Ok(ImagesOf(store.images, orderId.value))
  }

  /** Whoever may list an order's images also sees the order in its listing. */
  lemma ViewableImpliesListed(role: Role, callerId: string, o: Order)
    requires MayView(role, callerId, o)
    ensures Orders.Listed(role, callerId, o)
  {
  }

  /** The converse fails for the claim pool: a worker sees an unassigned
      pending order in its listing but may not list its images. */
  lemma PoolOrderImagesHidden(callerId: string, o: Order)
    requires o.assignedToId.None? && o.status == OrderStatus.PENDING
    ensures Orders.Listed(Role.TJENESTE, callerId, o)
    ensures !MayView(Role.TJENESTE, callerId, o)
  {
  }

  function NewImage(data: Validators.ImageCreateData, callerId: string, stamp: Stamp): (x: Image)
    ensures x.uploadedById == callerId && x.orderId == data.orderId && x.url == data.url
    ensures x.caption == data.caption && x.kind == data.kind
  {
    Image(stamp.id, data.orderId, data.url, data.caption, data.kind, callerId, stamp.at)
  }

  /** `POST /api/images`. */
  function Post(session: Option<SessionUser>, store: Store, body: RequestBody, fmt: Validators.Formats,
                stamp: Stamp): (out: Outcome<Image>)
    ensures Rbac.RequireAuth(session, store.users).Success? &&
            Rbac.RequireAuth(session, store.users).value.role == Role.UTLEIER ==>
      out == Outcome(Api.ApiError(403, "Only admin/worker can upload images"), store)
    ensures Rbac.RequireAuth(session, store.users).Failure? ==>
      out == Outcome(Api.HandleApiError(Rbac.RequireAuth(session, store.users).error), store)
    ensures Rbac.RequireAuth(session, store.users).Success? &&
            Rbac.RequireAuth(session, store.users).value.role != Role.UTLEIER &&
            Validators.ParseImageCreate(body, fmt).Failure? ==>
      out == Outcome(Api.HandleApiError(Validators.ParseImageCreate(body, fmt).error), store)
    ensures Rbac.RequireAuth(session, store.users).Success? &&
            Rbac.RequireAuth(session, store.users).value.role != Role.UTLEIER &&
            Validators.ParseImageCreate(body, fmt).Success? ==>
      var caller := Rbac.RequireAuth(session, store.users).value;
      var data := Validators.ParseImageCreate(body, fmt).value;
      && (FindOrder(store.orders, data.orderId).None? ==> out == Outcome(Api.ApiError(404, "Order not found"), store))
      && (FindOrder(store.orders, data.orderId).Some? && !MayAttach(caller.role, caller.id, FindOrder(store.orders, data.orderId).value) ==>
            out == Outcome(Api.ApiError(403, "Not assigned to order"), store))
      && (FindOrder(store.orders, data.orderId).Some? && MayAttach(caller.role, caller.id, FindOrder(store.orders, data.orderId).value) ==>
            out.response == Api.Created(NewImage(data, caller.id, stamp)))
    ensures out.response.status != 201 ==> out.store == store
    ensures out.response.status == 201 ==>
      && Rbac.RequireAuth(session, store.users).Success?
      && Validators.ParseImageCreate(body, fmt).Success?
    ensures out.response.status == 201 ==>
      var caller := Rbac.RequireAuth(session, store.users).value;
      var data := Validators.ParseImageCreate(body, fmt).value;
      && FindOrder(store.orders, data.orderId).Some?
      && MayAttach(caller.role, caller.id, FindOrder(store.orders, data.orderId).value)
      && out.store == store.(images := store.images + [NewImage(data, caller.id, stamp)])
  {
    match Rbac.RequireAuth(session, store.users)
    case Failure(e) => Outcome(Api.HandleApiError(e), store)
    case Success(caller) =>
      if caller.role !in [Role.ADMIN, Role.TJENESTE] then
        Outcome(Api.ApiError(403, "Only admin/worker can upload images"), store)
      else
        match Validators.ParseImageCreate(body, fmt)
        case Failure(e) => Outcome(Api.HandleApiError(e), store)
        case Success(data) =>
          match FindOrder(store.orders, data.orderId)
          case None => Outcome(Api.ApiError(404, "Order not found"), store)
          case Some(o) =>
            if caller.role == Role.TJENESTE && o.assignedToId != Some(caller.id) then
              Outcome(Api.ApiError(403, "Not assigned to order"), store)
            else
              var x := NewImage(data, caller.id, stamp);
              Outcome(Api.Created(x), store.(images := store.images + [x]))
  }

  /** An admin may attach images to any existing order. */
  lemma AdminAttachesAnywhere(session: Option<SessionUser>, store: Store, body: RequestBody,
                              fmt: Validators.Formats, stamp: Stamp)
    requires Rbac.RequireAuth(session, store.users).Success?
    requires Rbac.RequireAuth(session, store.users).value.role == Role.ADMIN
    requires Validators.ParseImageCreate(body, fmt).Success?
    requires FindOrder(store.orders, Validators.ParseImageCreate(body, fmt).value.orderId).Some?
    ensures Post(session, store, body, fmt, stamp).response.status == 201
  {
  }
}
