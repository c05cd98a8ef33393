/** The records of the relational store (users, service orders, images,
    comments, notifications), the session carried by a request, and the
    immutable store snapshot each handler reads and returns. */
module Domain {
  import opened Wrappers
  import Api
  import Listing

  /** The stored and the effective role of a user. */
  datatype Role = ADMIN | UTLEIER | TJENESTE

  /** The capability a non-admin user presents as (`activeMode`). */
  datatype ProfileMode = UTLEIER | TJENESTE

  datatype OrderStatus = PENDING | IN_PROGRESS | COMPLETED

  /** The role a mode stands for. */
  function ModeRole(m: ProfileMode): (r: Role)
    ensures r != Role.ADMIN
  {
    match m
    case UTLEIER => Role.UTLEIER
    case TJENESTE => Role.TJENESTE
  }

  /** A user row. `passwordHash` is the stored bcrypt hash. */
  datatype User = User(
    id: string,
    name: string,
    email: string,
    passwordHash: string,
    role: Role,
    canLandlord: bool,
    canService: bool,
    activeMode: ProfileMode,
    isActive: bool)

  /** A service order: exactly one landlord, at most one assignee. The
      service type and the date are kept as the strings the request gave. */
  datatype Order = Order(
    id: string,
    serviceType: string,
    address: string,
    date: string,
    note: Option<string>,
    landlordId: string,
    assignedToId: Option<string>,
    status: OrderStatus,
    createdAt: int)

  datatype Image = Image(
    id: string,
    orderId: string,
    url: string,
    caption: Option<string>,
    kind: Option<string>,
    uploadedById: string,
    createdAt: int)

  datatype Comment = Comment(id: string, imageId: string, userId: string, text: string, createdAt: int)

  datatype Notification = Notification(id: string, userId: string, message: string, createdAt: int)

  /** A snapshot of the store's tables. */
  datatype Store = Store(
    users: seq<User>,
    orders: seq<Order>,
    images: seq<Image>,
    comments: seq<Comment>,
    notifications: seq<Notification>)

  /** The id and creation time the store gives a newly created row. */
  datatype Stamp = Stamp(id: string, at: int)

  /** What a handler returns: its HTTP response and the store afterwards. */
  datatype Outcome<+T> = Outcome(response: Api.Response<T>, store: Store)

  /** The user part of a NextAuth session as `auth()` hands it over: absent
      when there is no session; `id` and `role` are copied from the token. */
  datatype SessionUser = SessionUser(id: Option<string>, name: string, email: string, role: Option<Role>)

  /** The JWT claims the application adds to a token. */
  datatype Token = Token(userId: Option<string>, role: Option<Role>)

  function UserId(u: User): string { u.id }
  function UserEmail(u: User): string { u.email }
  function OrderId(o: Order): string { o.id }
  function ImageId(i: Image): string { i.id }
  function OrderCreatedAt(o: Order): int { o.createdAt }
  function ImageCreatedAt(i: Image): int { i.createdAt }
  function CommentCreatedAt(c: Comment): int { c.createdAt }
  function NotificationCreatedAt(n: Notification): int { n.createdAt }

  /** User ids are the table's primary key. */
  predicate UniqueUserIds(users: seq<User>)
  {
    forall i, j :: 0 <= i < |users| && 0 <= j < |users| && users[i].id == users[j].id ==> i == j
  }

  function FindUser(users: seq<User>, id: string): Option<User>
  {
    Listing.FindBy(users, UserId, id)
  }

  function FindUserByEmail(users: seq<User>, email: string): Option<User>
  {
    Listing.FindBy(users, UserEmail, email)
  }

  function FindOrder(orders: seq<Order>, id: string): Option<Order>
  {
    Listing.FindBy(orders, OrderId, id)
  }

  function FindImage(images: seq<Image>, id: string): Option<Image>
  {
    Listing.FindBy(images, ImageId, id)
  }
}
