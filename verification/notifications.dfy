/** app/api/notifications/route.ts: a user's own notifications, and sending
    one. */
module Notifications {
  import opened Wrappers
  import opened Domain
  import Js
  import Listing
  import Rbac
  import Validators
  import Api

  const PageSize: nat := 20

  /** `where: { userId }`. */
  function AddressedTo(userId: string): Notification -> bool
  {
    (n: Notification) => n.userId == userId
  }

  /** The caller's notifications, newest first, at most `PageSize` of them:
      all of them when there are no more than that. */
  function Inbox(notifications: seq<Notification>, userId: string): (r: seq<Notification>)
    ensures |r| <= PageSize
    ensures forall i :: 0 <= i < |r| ==> r[i].userId == userId
    ensures Listing.SortedBy(r, NotificationCreatedAt, Listing.Descending)
    ensures multiset(r) <= multiset(notifications)
  {
    var own := Listing.Filter(notifications, AddressedTo(userId));
    var sorted := Listing.SortBy(own, NotificationCreatedAt, Listing.Descending);
    OwnedAfterSort(own, sorted, userId);
    Listing.TakeKeepsOrder(sorted, PageSize, NotificationCreatedAt, Listing.Descending);
    Listing.Take(sorted, PageSize)
  }

  /** The page is full unless the caller has fewer notifications than fit. */
  lemma InboxSize(notifications: seq<Notification>, userId: string)
    ensures var n := Listing.Count(notifications, AddressedTo(userId));
      |Inbox(notifications, userId)| == if n <= PageSize then n else PageSize
  {
    Listing.CountIsFilterSize(notifications, AddressedTo(userId));
    var own := Listing.Filter(notifications, AddressedTo(userId));
    var sorted := Listing.SortBy(own, NotificationCreatedAt, Listing.Descending);
    assert |sorted| == |own|;
    assert Inbox(notifications, userId) == Listing.Take(sorted, PageSize);
  }

  /** The page holds the newest notifications: any of the caller's
      notifications left off the page is no newer than any on it. */
  lemma InboxIsNewest(notifications: seq<Notification>, userId: string, x: Notification, i: nat)
    ensures var page := Inbox(notifications, userId);
      (x.userId == userId && multiset(page)[x] < multiset(notifications)[x] && i < |page|) ==>
        x.createdAt <= page[i].createdAt
  {
    var own := Listing.Filter(notifications, AddressedTo(userId));
    var sorted := Listing.SortBy(own, NotificationCreatedAt, Listing.Descending);
    var page := Inbox(notifications, userId);
    assert page == Listing.Take(sorted, PageSize);
    if x.userId == userId && multiset(page)[x] < multiset(notifications)[x] && i < |page| {
      assert multiset(sorted)[x] == multiset(notifications)[x];
      Listing.TakeKeepsFirst(sorted, PageSize, NotificationCreatedAt, Listing.Descending, x, i);
    }
  }

  lemma OwnedAfterSort(own: seq<Notification>, sorted: seq<Notification>, userId: string)
    requires forall i :: 0 <= i < |own| ==> own[i].userId == userId
    requires multiset(sorted) == multiset(own)
    ensures forall i :: 0 <= i < |sorted| ==> sorted[i].userId == userId
  {
    forall i | 0 <= i < |sorted| ensures sorted[i].userId == userId {
      assert sorted[i] in multiset(own);
    }
  }

  /** `GET /api/notifications`. */
  function Get(session: Option<SessionUser>, store: Store): (r: Api.Response<seq<Notification>>)
    ensures Rbac.RequireAuth(session, store.users).Failure? ==> r.status == 401
    ensures Rbac.RequireAuth(session, store.users).Success? ==>
      r == Api.Ok(Inbox(store.notifications, Rbac.RequireAuth(session, store.users).value.id))
  {
    match Rbac.RequireAuth(session, store.users)
    case Failure(e) => Api.HandleApiError(e)
    case Success(caller) => Api.Ok(Inbox(store.notifications, caller.id))
  }

  /** `POST /api/notifications`: admins and workers may notify any user id;
      there is no ownership check on the recipient. */
  function Post(session: Option<SessionUser>, store: Store, body: Js.RequestBody, stamp: Stamp): (out: Outcome<Notification>)
    ensures Rbac.RequireAuth(session, store.users).Success? &&
            Rbac.RequireAuth(session, store.users).value.role == Role.UTLEIER ==>
      out == Outcome(Api.ApiError(403, "Only admin/worker can send notifications"), store)
    ensures Rbac.RequireAuth(session, store.users).Failure? ==>
      out == Outcome(Api.HandleApiError(Rbac.RequireAuth(session, store.users).error), store)
    ensures Rbac.RequireAuth(session, store.users).Success? &&
            Rbac.RequireAuth(session, store.users).value.role != Role.UTLEIER &&
            Validators.ParseNotificationCreate(body).Failure? ==>
      out == Outcome(Api.HandleApiError(Validators.ParseNotificationCreate(body).error), store)
    ensures out.response.status != 201 ==> out.store == store
    ensures out.response.status == 201 <==>
      && Rbac.RequireAuth(session, store.users).Success?
      && Rbac.RequireAuth(session, store.users).value.role != Role.UTLEIER
      && Validators.ParseNotificationCreate(body).Success?
    ensures out.response.status == 201 ==>
      var data := Validators.ParseNotificationCreate(body).value;
      && out.store == store.(notifications := store.notifications + [Notification(stamp.id, data.userId, data.message, stamp.at)])
      && out.response == Api.Created(Notification(stamp.id, data.userId, data.message, stamp.at))
  {
    match Rbac.RequireAuth(session, store.users)
    case Failure(e) => Outcome(Api.HandleApiError(e), store)
    case Success(caller) =>
      if caller.role !in [Role.ADMIN, Role.TJENESTE] then
        Outcome(Api.ApiError(403, "Only admin/worker can send notifications"), store)
      else
        match Validators.ParseNotificationCreate(body)
        case Failure(e) => Outcome(Api.HandleApiError(e), store)
        case Success(data) =>
          var n := Notification(stamp.id, data.userId, data.message, stamp.at);
          Outcome(Api.Created(n), store.(notifications := store.notifications + [n]))
  }

  /** A sent notification reaches exactly its recipient: the recipient has
      one more, and every other user has as many as before. */
  lemma SentReachesRecipient(session: Option<SessionUser>, store: Store, body: Js.RequestBody, stamp: Stamp, other: string)
    requires Post(session, store, body, stamp).response.status == 201
    ensures var recipient := Validators.ParseNotificationCreate(body).value.userId;
      var after := Post(session, store, body, stamp).store.notifications;
      && Listing.Count(after, AddressedTo(recipient)) == Listing.Count(store.notifications, AddressedTo(recipient)) + 1
      && (other != recipient ==> Listing.Count(after, AddressedTo(other)) == Listing.Count(store.notifications, AddressedTo(other)))
  {
    var data := Validators.ParseNotificationCreate(body).value;
    var n := Notification(stamp.id, data.userId, data.message, stamp.at);
    Listing.CountAppend(store.notifications, n, AddressedTo(data.userId));
    Listing.CountAppend(store.notifications, n, AddressedTo(other));
  }
}
