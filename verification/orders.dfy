/** app/api/orders/route.ts: the role-based order listing and order creation. */
module Orders {
  import opened Wrappers
  import opened Js
  import opened Domain
  import Listing
  import Rbac
  import Validators
  import Api

  /** The listing filter: everything for ADMIN, own orders for UTLEIER, and
      for TJENESTE the orders assigned to the caller plus the unassigned
      pending ones (the claim pool). */
  predicate Listed(role: Role, callerId: string, o: Order)
  {
    match role
    case ADMIN => true
    case UTLEIER => o.landlordId == callerId
    case TJENESTE =>
      o.assignedToId == Some(callerId) || (o.assignedToId.None? && o.status == OrderStatus.PENDING)
  }

  /** The orders a caller sees, newest first. */
  function Visible(role: Role, callerId: string, orders: seq<Order>): (r: seq<Order>)
    ensures forall i :: 0 <= i < |r| ==> Listed(role, callerId, r[i])
    ensures forall o :: multiset(r)[o] == if Listed(role, callerId, o) then multiset(orders)[o] else 0
    ensures Listing.SortedBy(r, OrderCreatedAt, Listing.Descending)
  {
    var visible := Listing.Filter(orders, o => Listed(role, callerId, o));
    var sorted := Listing.SortBy(visible, OrderCreatedAt, Listing.Descending);
    assert forall i :: 0 <= i < |sorted| ==> Listed(role, callerId, sorted[i]) by {
      forall i | 0 <= i < |sorted| ensures Listed(role, callerId, sorted[i]) {
        assert sorted[i] in multiset(visible);
      }
    }
    sorted
  }

  /** `GET /api/orders`. */
  function Get(session: Option<SessionUser>, store: Store): (r: Api.Response<seq<Order>>)
    ensures Rbac.RequireAuth(session, store.users).Failure? ==> r.status == 401
    ensures Rbac.RequireAuth(session, store.users).Success? ==>
      var caller := Rbac.RequireAuth(session, store.users).value;
      r == Api.Ok(Visible(caller.role, caller.id, store.orders))
  {
    match Rbac.RequireAuth(session, store.users)
    case Failure(e) => Api.HandleApiError(e)
    case Success(caller) => Api.Ok(Visible(caller.role, caller.id, store.orders))
  }

  /** An admin sees every order. */
  lemma AdminSeesEverything(callerId: string, orders: seq<Order>)
    ensures multiset(Visible(Role.ADMIN, callerId, orders)) == multiset(orders)
  {
  }

  /** A landlord sees exactly its own orders. */
  lemma LandlordSeesOwnOrders(callerId: string, orders: seq<Order>, o: Order)
    ensures o in Visible(Role.UTLEIER, callerId, orders) <==> o in orders && o.landlordId == callerId
  {
    assert o in Visible(Role.UTLEIER, callerId, orders) <==> o in multiset(Visible(Role.UTLEIER, callerId, orders));
  }

  /** A worker sees exactly its assigned orders and the unassigned pending ones. */
  lemma WorkerSeesAssignedAndPool(callerId: string, orders: seq<Order>, o: Order)
    ensures o in Visible(Role.TJENESTE, callerId, orders) <==>
      o in orders && (o.assignedToId == Some(callerId) || (o.assignedToId.None? && o.status == OrderStatus.PENDING))
  {
    assert o in Visible(Role.TJENESTE, callerId, orders) <==> o in multiset(Visible(Role.TJENESTE, callerId, orders));
  }

  /** Only landlords and admins create orders. */
  predicate MayCreate(role: Role)
  {
    role == Role.UTLEIER || role == Role.ADMIN
  }

  /** `role === "ADMIN" && body.landlordId`: an admin's request names a
      landlord with a truthy value. */
  predicate AdminNamesLandlord(role: Role, body: RequestBody)
  {
    role == Role.ADMIN && body.Object? && "landlordId" in body.fields && Truthy(body.fields["landlordId"])
  }

  /** `body.landlordId` of an admin's request when it is truthy, otherwise the
      caller. A truthy value that is not a string cannot be stored, and the
      insert fails. */
  function LandlordFor(role: Role, callerId: string, body: RequestBody): (r: Result<string, Api.Thrown>)
    ensures !AdminNamesLandlord(role, body) ==> r == Success(callerId)
    ensures role != Role.ADMIN ==> r == Success(callerId)
    ensures r.Success? && r.value != callerId ==>
      role == Role.ADMIN && body.Object? && "landlordId" in body.fields && body.fields["landlordId"] == JString(r.value)
    ensures (role == Role.ADMIN && body.Object? && "landlordId" in body.fields && body.fields["landlordId"].JString?
             && body.fields["landlordId"].s != "") ==> r == Success(body.fields["landlordId"].s)
    ensures r.Failure? <==> AdminNamesLandlord(role, body) && !body.fields["landlordId"].JString?
    ensures r.Failure? ==> r.error.Error? && r.error.cls == Api.PrismaValidation
  {
    if AdminNamesLandlord(role, body) then
      match body.fields["landlordId"]
      case JString(s) => Success(s)
      case _ => Failure(Api.Error(Api.PrismaValidation, "Invalid value provided for landlordId"))
    else Success(callerId)
  }

  /** The order a successful creation inserts: pending and unassigned. */
  function NewOrder(data: Validators.OrderCreateData, landlordId: string, stamp: Stamp): (o: Order)
    ensures o.status == OrderStatus.PENDING && o.assignedToId.None?
    ensures o.landlordId == landlordId && o.address == data.address && o.note == data.note
    ensures o.serviceType == data.serviceType && o.date == data.date
    ensures o.id == stamp.id && o.createdAt == stamp.at
  {
    Order(stamp.id, data.serviceType, data.address, data.date, data.note, landlordId, None, OrderStatus.PENDING, stamp.at)
  }

  /** `POST /api/orders`. */
  function Post(session: Option<SessionUser>, store: Store, body: RequestBody, fmt: Validators.Formats,
                stamp: Stamp): (out: Outcome<Order>)
    ensures Rbac.RequireAuth(session, store.users).Success? &&
            !MayCreate(Rbac.RequireAuth(session, store.users).value.role) ==>
      out == Outcome(Api.ApiError(403, "Only landlord/admin can create orders"), store)
    ensures Rbac.RequireAuth(session, store.users).Failure? ==>
      out == Outcome(Api.HandleApiError(Rbac.RequireAuth(session, store.users).error), store)
    ensures Rbac.RequireAuth(session, store.users).Success? &&
            MayCreate(Rbac.RequireAuth(session, store.users).value.role) &&
            Validators.ParseOrderCreate(body, fmt).Failure? ==>
      out == Outcome(Api.HandleApiError(Validators.ParseOrderCreate(body, fmt).error), store)
    ensures Rbac.RequireAuth(session, store.users).Success? &&
            MayCreate(Rbac.RequireAuth(session, store.users).value.role) &&
            Validators.ParseOrderCreate(body, fmt).Success? ==>
      var caller := Rbac.RequireAuth(session, store.users).value;
      && (out.response.status == 201 <==> LandlordFor(caller.role, caller.id, body).Success?)
      && (LandlordFor(caller.role, caller.id, body).Failure? ==> out.response.status == 500)
    ensures out.response.status != 201 ==> out.store == store
    ensures out.response.status == 201 ==> Rbac.RequireAuth(session, store.users).Success?
    ensures out.response.status == 201 ==>
      var caller := Rbac.RequireAuth(session, store.users).value;
      && MayCreate(caller.role)
      && Validators.ParseOrderCreate(body, fmt).Success?
      && LandlordFor(caller.role, caller.id, body).Success?
      && out.store == store.(orders := store.orders + [
           NewOrder(Validators.ParseOrderCreate(body, fmt).value, LandlordFor(caller.role, caller.id, body).value, stamp)])
      && out.response ==
           Api.Created(NewOrder(Validators.ParseOrderCreate(body, fmt).value, LandlordFor(caller.role, caller.id, body).value, stamp))
  {
    match Rbac.RequireAuth(session, store.users)
    case Failure(e) => Outcome(Api.HandleApiError(e), store)
    case Success(caller) =>
      if !MayCreate(caller.role) then Outcome(Api.ApiError(403, "Only landlord/admin can create orders"), store)
      else
        match Validators.ParseOrderCreate(body, fmt)
        case Failure(e) => Outcome(Api.HandleApiError(e), store)
        case Success(data) =>
          match LandlordFor(caller.role, caller.id, body)
          case Failure(e) => Outcome(Api.HandleApiError(e), store)
          case Success(landlordId) =>
            var o := NewOrder(data, landlordId, stamp);
            Outcome(Api.Created(o), store.(orders := store.orders + [o]))
  }

  /** A landlord's new order always belongs to the landlord. */
  lemma LandlordOwnsCreatedOrder(session: Option<SessionUser>, store: Store, body: RequestBody,
                                 fmt: Validators.Formats, stamp: Stamp)
    requires Post(session, store, body, fmt, stamp).response.status == 201
    requires Rbac.RequireAuth(session, store.users).value.role == Role.UTLEIER
    ensures Post(session, store, body, fmt, stamp).store.orders[|store.orders|].landlordId
            == Rbac.RequireAuth(session, store.users).value.id
  {
  }
}
