/** app/api/admin/stats/route.ts: the admin dashboard counters. */
module AdminStats {
  import opened Wrappers
  import opened Domain
  import Listing
  import Rbac
  import Api

  datatype Stats = Stats(activeOrders: nat, completedOrders: nat, landlords: nat, workers: nat)

  predicate IsActiveOrder(o: Order) { o.status == OrderStatus.PENDING || o.status == OrderStatus.IN_PROGRESS }
  predicate IsCompletedOrder(o: Order) { o.status == OrderStatus.COMPLETED }
  predicate IsActiveLandlord(u: User) { u.role == Role.UTLEIER && u.isActive }
  predicate IsActiveWorker(u: User) { u.role == Role.TJENESTE && u.isActive }

  /** The four counts over the store. */
  function Count(store: Store): (s: Stats)
    ensures s.activeOrders == |Listing.Filter(store.orders, IsActiveOrder)|
    ensures s.completedOrders == |Listing.Filter(store.orders, IsCompletedOrder)|
    ensures s.activeOrders + s.completedOrders == |store.orders|
    ensures s.landlords + s.workers <= |store.users|
    ensures s.landlords == |Listing.Filter(store.users, IsActiveLandlord)|
    ensures s.workers == |Listing.Filter(store.users, IsActiveWorker)|
  {
    Listing.CountPartition(store.orders, IsActiveOrder, IsCompletedOrder);
    Listing.CountIsFilterSize(store.orders, IsActiveOrder);
    Listing.CountIsFilterSize(store.orders, IsCompletedOrder);
    Listing.CountIsFilterSize(store.users, IsActiveLandlord);
    Listing.CountIsFilterSize(store.users, IsActiveWorker);
    StoredRoleCountsBounded(store.users);
    Stats(Listing.Count(store.orders, IsActiveOrder), Listing.Count(store.orders, IsCompletedOrder),
          Listing.Count(store.users, IsActiveLandlord), Listing.Count(store.users, IsActiveWorker))
  }

  /** Landlords and workers are disjoint by stored role; admins and inactive
      users are in neither count. */
  lemma {:induction false} StoredRoleCountsBounded(users: seq<User>)
    ensures Listing.Count(users, IsActiveLandlord) + Listing.Count(users, IsActiveWorker)
            + Listing.Count(users, (u: User) => u.role == Role.ADMIN || !u.isActive) == |users|
  {
    if users != [] {
      StoredRoleCountsBounded(users[1..]);
    }
  }

  /** `GET /api/admin/stats`: admins only, by effective role. */
  function Get(session: Option<SessionUser>, store: Store): (r: Api.Response<Stats>)
    ensures r.status == 200 <==>
      Rbac.RequireAuth(session, store.users).Success? && Rbac.RequireAuth(session, store.users).value.role == Role.ADMIN
    ensures r.status == 200 ==> r.body == Api.Json(Count(store))
    ensures Rbac.RequireAuth(session, store.users).Success? && r.status != 200 ==> r.status == 403
    ensures Rbac.RequireAuth(session, store.users).Failure? ==> r.status == 401
  {
    match Rbac.RequireRole([Role.ADMIN], session, store.users)
    case Failure(e) => Api.HandleApiError(e)
    case Success(_) => Api.Ok(Count(store))
  }
}
