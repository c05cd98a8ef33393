/** app/api/comments/route.ts: reading and writing comments on an image,
    gated by access to the image's order. */
module Comments {
  import opened Wrappers
  import opened Domain
  import Js
  import Listing
  import Rbac
  import Validators
  import Images
  import Api

  /** The error the store reports when an image's required order is not in
      the store, whatever the caller's role. */
  const MissingOrder: Api.Thrown :=
    Api.Error(Api.PrismaUnknownRequest, "Inconsistent query result: Field order is required to return data, got `null` instead.")

  /** `canAccessImage(userId, role, imageId)`. */
  function CanAccessImage(store: Store, callerId: string, role: Role, imageId: string): (r: Result<bool, Api.Thrown>)
    ensures FindImage(store.images, imageId).None? ==> r == Success(false)
    ensures (FindImage(store.images, imageId).Some? &&
             FindOrder(store.orders, FindImage(store.images, imageId).value.orderId).Some?) ==>
      var o := FindOrder(store.orders, FindImage(store.images, imageId).value.orderId).value;
      r == Success(Images.MayView(role, callerId, o))
    ensures r.Failure? <==>
      FindImage(store.images, imageId).Some? && FindOrder(store.orders, FindImage(store.images, imageId).value.orderId).None?
    ensures r.Failure? ==> r.error == MissingOrder
  {
    match FindImage(store.images, imageId)
    case None => Success(false)
    case Some(image) =>
      match FindOrder(store.orders, image.orderId)
      case None => Failure(MissingOrder)
      case Some(o) =>
        if role == Role.ADMIN then Success(true)
        else if role == Role.UTLEIER && o.landlordId == callerId then Success(true)
        else if role == Role.TJENESTE && o.assignedToId == Some(callerId) then Success(true)
        else Success(false)
  }

  /** Comment access on an image is image-listing access on its order. */
  lemma AccessFollowsOrder(store: Store, callerId: string, role: Role, imageId: string)
    requires FindImage(store.images, imageId).Some?
    requires FindOrder(store.orders, FindImage(store.images, imageId).value.orderId).Some?
    ensures CanAccessImage(store, callerId, role, imageId).Success?
    ensures CanAccessImage(store, callerId, role, imageId).value <==>
      || role == Role.ADMIN
      || (role == Role.UTLEIER && FindOrder(store.orders, FindImage(store.images, imageId).value.orderId).value.landlordId == callerId)
      || (role == Role.TJENESTE && FindOrder(store.orders, FindImage(store.images, imageId).value.orderId).value.assignedToId == Some(callerId))
  {
  }

  function CommentsOf(comments: seq<Comment>, imageId: string): (r: seq<Comment>)
    ensures forall i :: 0 <= i < |r| ==> r[i].imageId == imageId
    ensures forall c :: multiset(r)[c] == if c.imageId == imageId then multiset(comments)[c] else 0
    ensures Listing.SortedBy(r, CommentCreatedAt, Listing.Ascending)
  {
    var own := Listing.Filter(comments, (c: Comment) => c.imageId == imageId);
    var sorted := Listing.SortBy(own, CommentCreatedAt, Listing.Ascending);
    assert forall i :: 0 <= i < |sorted| ==> sorted[i].imageId == imageId by {
      forall i | 0 <= i < |sorted| ensures sorted[i].imageId == imageId {
        assert sorted[i] in multiset(own);
      }
    }
    sorted
  }

  /** `GET /api/comments?imageId=...`: the image's comments, oldest first. */
  function Get(session: Option<SessionUser>, store: Store, imageId: Option<string>): (r: Api.Response<seq<Comment>>)
    ensures Rbac.RequireAuth(session, store.users).Failure? ==>
      r == Api.HandleApiError(Rbac.RequireAuth(session, store.users).error)
    ensures Rbac.RequireAuth(session, store.users).Failure? ==> r.status == 401
    ensures Rbac.RequireAuth(session, store.users).Success? && (imageId.None? || imageId.value == "") ==>
      r == Api.ApiError(400, "Missing imageId")
    ensures r.status == 200 <==>
      && Rbac.RequireAuth(session, store.users).Success?
      && imageId.Some? && imageId.value != ""
      && CanAccessImage(store, Rbac.RequireAuth(session, store.users).value.id,
                        Rbac.RequireAuth(session, store.users).value.role, imageId.value) == Success(true)
    ensures r.status == 200 ==> r.body == Api.Json(CommentsOf(store.comments, imageId.value))
    ensures (Rbac.RequireAuth(session, store.users).Success? && imageId.Some? && imageId.value != "" &&
             CanAccessImage(store, Rbac.RequireAuth(session, store.users).value.id,
                            Rbac.RequireAuth(session, store.users).value.role, imageId.value) == Success(false))
            ==> r == Api.ApiError(403, "Forbidden")
  {
    match Rbac.RequireAuth(session, store.users)
    case Failure(e) => Api.HandleApiError(e)
    case Success(caller) =>
      if imageId.None? || imageId.value == "" then Api.ApiError(400, "Missing imageId")
      else
        match CanAccessImage(store, caller.id, caller.role, imageId.value)
        case Failure(e) => Api.HandleApiError(e)
        case Success(allowed) =>
          if !allowed then Api.ApiError(403, "Forbidden")
          else Api.Ok(CommentsOf(store.comments, imageId.value))
  }

  function NewComment(data: Validators.CommentCreateData, callerId: string, stamp: Stamp): (c: Comment)
    ensures c.userId == callerId && c.imageId == data.imageId && c.text == data.text
  {
    Comment(stamp.id, data.imageId, callerId, data.text, stamp.at)
  }

  /** `POST /api/comments`: the payload is parsed before access is checked. */
  function Post(session: Option<SessionUser>, store: Store, body: Js.RequestBody, stamp: Stamp): (out: Outcome<Comment>)
    ensures Rbac.RequireAuth(session, store.users).Failure? ==>
      out == Outcome(Api.HandleApiError(Rbac.RequireAuth(session, store.users).error), store)
    ensures Rbac.RequireAuth(session, store.users).Success? && Validators.ParseCommentCreate(body).Failure? ==>
      out == Outcome(Api.HandleApiError(Validators.ParseCommentCreate(body).error), store)
    ensures Rbac.RequireAuth(session, store.users).Success? && Validators.ParseCommentCreate(body).Failure? ==>
      out.response.status == 500
    ensures (Rbac.RequireAuth(session, store.users).Success? && Validators.ParseCommentCreate(body).Success? &&
             CanAccessImage(store, Rbac.RequireAuth(session, store.users).value.id,
                            Rbac.RequireAuth(session, store.users).value.role,
                            Validators.ParseCommentCreate(body).value.imageId) == Success(true))
            ==> out.response == Api.Created(NewComment(Validators.ParseCommentCreate(body).value,
                                                      Rbac.RequireAuth(session, store.users).value.id, stamp))
    ensures out.response.status != 201 ==> out.store == store
    ensures out.response.status == 201 ==>
      && Rbac.RequireAuth(session, store.users).Success?
      && Validators.ParseCommentCreate(body).Success?
    ensures out.response.status == 201 ==>
      var caller := Rbac.RequireAuth(session, store.users).value;
      var data := Validators.ParseCommentCreate(body).value;
      && CanAccessImage(store, caller.id, caller.role, data.imageId) == Success(true)
      && out.store == store.(comments := store.comments + [NewComment(data, caller.id, stamp)])
    ensures (Rbac.RequireAuth(session, store.users).Success? && Validators.ParseCommentCreate(body).Success? &&
             CanAccessImage(store, Rbac.RequireAuth(session, store.users).value.id,
                            Rbac.RequireAuth(session, store.users).value.role,
                            Validators.ParseCommentCreate(body).value.imageId) == Success(false))
            ==> out == Outcome(Api.ApiError(403, "Forbidden"), store)
  {
    match Rbac.RequireAuth(session, store.users)
    case Failure(e) => Outcome(Api.HandleApiError(e), store)
    case Success(caller) =>
      match Validators.ParseCommentCreate(body)
      case Failure(e) => Outcome(Api.HandleApiError(e), store)
      case Success(data) =>
        match CanAccessImage(store, caller.id, caller.role, data.imageId)
        case Failure(e) => Outcome(Api.HandleApiError(e), store)
        case Success(allowed) =>
          if !allowed then Outcome(Api.ApiError(403, "Forbidden"), store)
          else
            var c := NewComment(data, caller.id, stamp);
            Outcome(Api.Created(c), store.(comments := store.comments + [c]))
  }
}
