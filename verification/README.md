# Access-control and request-decision policy of the airhost operations platform

This Dafny project models the request-decision core of a small operations
platform. The platform connects property landlords (UTLEIER), service workers
(TJENESTE) and administrators (ADMIN) around cleaning and maintenance orders.
The model covers:

- how a stored user is resolved to the **effective role** used for a request;
- the **authentication and role gates** (`requireAuth`, `requireRole`) and the
  mapping of thrown markers to 401 / 403 / 500;
- the **mode switch**, the only operation that changes a user's own
  capability state;
- **registration**, which maps a requested sign-up role to a stored profile
  and maps its errors to 400 / 409 / 503 / 500;
- the **per-resource checks** repeated inside each handler: order listing and
  creation, image listing, attaching and uploading, comment access,
  notification inbox and sending, and the admin statistics;
- the **path gate** in the middleware;
- the **input schemas**, as length, enum and optionality predicates over the
  JSON body;
- the upload **filename sanitiser and URL shape**, the string-keyed **module
  registry**, and the stub **payment intent**.

The database is an immutable `Domain.Store` snapshot, with one sequence per
table. A handler reads the snapshot and returns a `Domain.Outcome`: its HTTP
response and the snapshot afterwards. `findUnique` is the first row with the
key. `findMany` is a filter, then a sort on `createdAt`, then an optional
`take`. `count` is a counting function. These are in module `Listing`.

Values from outside the code are parameters:

- the session and token NextAuth supplies;
- the id and timestamp the store gives a new row (`Domain.Stamp`);
- bcrypt's hash and compare;
- zod's email / url / datetime checks and the ServiceType enum
  (`Validators.Formats`);
- `Date.now()`;
- base64 encoding;
- the `VERCEL` setting;
- a store failure during sign-up.

String lengths follow JavaScript's `.length` in UTF-16 code units
(`Js.Utf16Length`). A character outside the Basic Multilingual Plane counts
twice, and the sanitiser replaces it with two underscores, as the source's
regular expression does.

Some behaviour of the handlers is worth stating up front:

- Image listing and comment access allow a worker only on orders **assigned**
  to it. The unassigned pending orders that workers see in their order list
  are not enough (`Images.PoolOrderImagesHidden`).
- Comment access depends only on the role and the image's order. The image's
  uploader and earlier commenters get no extra access.
- The admin check in the mode switch uses the effective role and answers 400.
- A bad mode value is not answered by the handler itself. The schema error
  goes through `handleApiError` and becomes 500.

## Model

| member | source | states |
|---|---|---|
| UserRole.Effective | lib/user-role.ts:14-26 | A stored ADMIN always resolves to ADMIN with both flags true and mode UTLEIER, whatever its stored flags and mode. A non-admin never resolves to ADMIN, and its flags and mode are reported unchanged. A non-admin in TJENESTE mode with canService resolves to TJENESTE. Otherwise it resolves to UTLEIER exactly when it has canLandlord, so UTLEIER implies canLandlord. The remaining non-admins fall back to TJENESTE |
| UserRole.ResolveUserRole | lib/user-role.ts:4-27 | Fails with UNAUTHORIZED exactly when no user row has the id. Otherwise it returns the effective role of a row with that id |
| UserRole.EffectiveFollowsActiveMode | lib/user-role.ts:18-24 | A non-admin whose stored mode names a capability it holds resolves to exactly that mode |
| UserRole.EffectiveRoleIsHeld | lib/user-role.ts:18-26 | A non-admin with at least one capability is never given a role it lacks |
| UserRole.FallbackWithoutCapabilities | lib/user-role.ts:26 | A non-admin with neither capability still resolves to TJENESTE, a role it does not hold |
| UserRole.AdminIgnoresStoredCapabilities | lib/user-role.ts:14-16 | An admin's stored flags and mode do not affect its resolution |
| Rbac.RequireAuth | lib/rbac.ts:17-36 | A missing session user or an empty id throws UNAUTHORIZED. Otherwise it succeeds exactly when the resolver does. id, name and email are copied from the session. Role, flags and mode come from the resolver |
| Rbac.TokenRoleIgnored | lib/rbac.ts:23-30 | The role carried in the session token has no influence on the authenticated session |
| Rbac.StoredAdminAuthenticatesAsAdmin | lib/rbac.ts:23-30 | With unique user ids, a stored admin always authenticates as ADMIN |
| Rbac.RequireRole | lib/rbac.ts:38-44 | Authentication errors pass through. It succeeds exactly when the effective role is in the list, and then returns exactly requireAuth's session. Otherwise it throws FORBIDDEN |
| Api.HandleApiError | lib/api.ts:7-13 | Any Error with message UNAUTHORIZED gives 401 and one with FORBIDDEN gives 403, each with its fixed `{error}` body. Every other Error, and every non-Error value, gives 500 |
| Api.SchemaFailureIs500 | lib/api.ts:8-12 | A schema-parse error never reads as a marker, so it ends as 500 |
| Validators.ParseRegister | lib/validators.ts:4-9 | Accepts exactly an object with name length ≥ 2, a valid email, password length ≥ 8, and an optional role in {UTLEIER, TJENESTE, BEGGE}. The result carries the body's name, email and password, and the sign-up role the body names, or none when no role was sent. A non-JSON body throws SyntaxError and any other misfit throws ZodError |
| Validators.RegisterRejectsAdmin | lib/validators.ts:8 | A sign-up asking for role ADMIN fails the schema |
| Validators.ParseUserCreate | lib/validators.ts:11-16 | Accepts exactly an object with name ≥ 2, a valid email, password ≥ 8, and a role that is one of the three role names. The result carries the body's name, email, password and named role |
| Validators.ParseUserUpdate | lib/validators.ts:18-22 | name ≥ 2, a role name and a boolean isActive are all optional. Each is present in the result exactly when it was sent, and then it has the body's value |
| Validators.ParseModeSwitch | lib/validators.ts:24-26 | Accepts exactly mode UTLEIER or TJENESTE and yields that mode |
| Validators.ParseOrderCreate | lib/validators.ts:28-33 | Requires a service type, address length ≥ 3 and a datetime. The note is optional with length ≤ 500. The result carries the body's type, address, date and note |
| Validators.ParseOrderUpdate | lib/validators.ts:35-40 | Every field is optional. status is one of PENDING, IN_PROGRESS or COMPLETED. The bounds are the creation ones. Each field sent appears in the result with the body's value, and each field not sent is absent |
| Validators.EmptyOrderUpdateAccepted | lib/validators.ts:35-40 | An empty object is a valid update that changes nothing |
| Validators.ParseAssign | lib/validators.ts:42-44 | assignedToId must be a non-empty string |
| Validators.ParseImageCreate | lib/validators.ts:46-51 | A non-empty orderId and a url are required. caption (≤ 200) and kind (before/after) are optional. The result carries the body's orderId, url, caption and kind |
| Validators.ParseCommentCreate | lib/validators.ts:53-56 | A non-empty imageId, and text of length 1 to 300 inclusive |
| Validators.ParseNotificationCreate | lib/validators.ts:58-61 | A non-empty userId, and a message of length 1 to 240 |
| Validators.ParseErrorIs500 | lib/api.ts:7-12 | Any failed parse, whether a syntax or a schema error, ends as 500 in handlers that use handleApiError |
| ModeSwitch.SwitchMode | app/api/users/me/mode/route.ts:23-28 | The switch succeeds exactly when the requested mode's capability is enabled. It then changes only activeMode |
| ModeSwitch.Put | app/api/users/me/mode/route.ts:7-43 | Auth errors and a bad mode go through handleApiError. An effective ADMIN gets 400 before the body is read. For an authenticated non-admin with a valid mode, the answer is 200 exactly when the caller holds that mode's capability. Otherwise it is 403, with the landlord or service message. A 200 updates only the users table, setting activeMode, and returns the row as switched by SwitchMode. Any non-200 answer leaves the store unchanged |
| ModeSwitch.SwitchModeIdempotent | app/api/users/me/mode/route.ts:28 | Switching to the same mode twice gives the same user as switching once |
| ModeSwitch.SetActiveModeIdempotent | app/api/users/me/mode/route.ts:26-29 | The stored update applied twice leaves the same table as once |
| ModeSwitch.SwitchedModeIsEffective | app/api/users/me/mode/route.ts:23-28 | After a successful switch, the resolver returns the requested mode |
| ModeSwitch.InvalidModeIs500 | app/api/users/me/mode/route.ts:14-15 | A mode outside the enum ends as 500, with no change to the store |
| ModeSwitch.MissingCapabilityIs403 | app/api/users/me/mode/route.ts:23-24 | Asking for a capability the stored user lacks gives 403, with no change to the store |
| ModeSwitch.FindAfterSetActiveMode | app/api/users/me/mode/route.ts:26-37 | After the update, looking up the user finds the updated row |
| ModeSwitch.SwitchTakesEffect | app/api/users/me/mode/route.ts:23-28 | After a 200, the same user's next request resolves to the requested mode |
| Register.ProfileFor | app/api/auth/register/route.ts:20-25 | TJENESTE maps to a service-only TJENESTE user. BEGGE maps to an UTLEIER user with both flags. Absent or UTLEIER maps to a landlord-only user. No profile is ADMIN, each holds a capability, and its mode names a held capability |
| Register.RegisterError | app/api/auth/register/route.ts:47-72 | ZodError gives 400. P2002 gives 409. An initialisation error, or a message naming either connection failure, gives 503. Anything else gives 500. Each status has its fixed code and message: INVALID_PAYLOAD, EMAIL_EXISTS (the same answer as an email found by the lookup), DB_UNAVAILABLE and REGISTER_FAILED |
| Register.NewUser | app/api/auth/register/route.ts:27-33 | The inserted user is active and well formed. Its role, capabilities and mode are those of the profile for the requested sign-up role. It carries the submitted name, email and hashed password |
| Register.Post | app/api/auth/register/route.ts:8-46 | A parse failure takes the catch mapping. An existing email gives 409 with no insert. For a valid new email, a failing insert answers the catch mapping of its error. An insert that does not fail answers 201 with the new user's fields. A non-201 answer leaves the store unchanged. A 201 appends exactly the new user |
| Register.RegisteredUserResolvesToItsMode | app/api/auth/register/route.ts:20-25 | A fresh user's effective role is its stored mode, never ADMIN |
| Register.PayloadErrors | app/api/auth/register/route.ts:48-50 | An invalid payload gives 400. A body that is not JSON gives 500 |
| Register.InsertRaceIs409 | app/api/auth/register/route.ts:52-54 | A unique-constraint race on the insert gives exactly the answer for an existing email, and stores nothing |
| Register.UnreachableStoreIs503 | app/api/auth/register/route.ts:56-66 | A store that cannot be reached at the insert gives 503, and nothing is stored |
| Orders.Visible | app/api/orders/route.ts:11-30 | The listing holds exactly the orders the role's filter admits, each as often as in the table, and is newest first |
| Orders.Get | app/api/orders/route.ts:8-36 | Unauthenticated callers get 401. Others get the visible orders for their effective role |
| Orders.AdminSeesEverything | app/api/orders/route.ts:12-13 | ADMIN's listing is a permutation of all orders |
| Orders.LandlordSeesOwnOrders | app/api/orders/route.ts:14-15 | UTLEIER sees exactly the orders whose landlordId is the caller |
| Orders.WorkerSeesAssignedAndPool | app/api/orders/route.ts:16-21 | TJENESTE sees exactly its assigned orders and the unassigned PENDING ones |
| Orders.LandlordFor | app/api/orders/route.ts:54 | The caller owns the new order unless an admin sends a truthy landlordId. A non-admin, or an admin with an absent or falsy landlordId, always gets the caller. An admin's truthy string is used instead. The insert fails exactly when an admin's truthy landlordId is not a string |
| Orders.NewOrder | app/api/orders/route.ts:48-56 | A new order is PENDING and unassigned. It carries the chosen landlord and the submitted type, address, date and note |
| Orders.Post | app/api/orders/route.ts:38-62 | Auth errors go through handleApiError. Roles other than UTLEIER and ADMIN get 403 before the body is parsed. A schema failure goes through handleApiError. For UTLEIER or ADMIN with a valid body, the answer is 201 exactly when the landlord can be chosen, and otherwise it is 500. Only a 201 changes the store. It appends exactly the new order and answers with that order |
| Orders.LandlordOwnsCreatedOrder | app/api/orders/route.ts:54 | An order created by a landlord belongs to that landlord |
| Images.ImagesOf | app/api/images/route.ts:24-28 | Exactly the order's images, newest first |
| Images.Get | app/api/images/route.ts:7-34 | Auth errors go through handleApiError and give 401. A missing orderId gives 400 and an unknown order gives 404. It returns 200 exactly when the caller is ADMIN, the order's landlord as UTLEIER, or its assignee as TJENESTE. An authenticated caller denied on an existing order gets 403 "Forbidden" |
| Images.ViewableImpliesListed | app/api/images/route.ts:17-20 | Anyone allowed to list an order's images also sees the order in its listing |
| Images.PoolOrderImagesHidden | app/api/images/route.ts:20 | A worker sees an unassigned pending order in its listing, but may not list its images |
| Images.NewImage | app/api/images/route.ts:52-59 | The created image records the caller as uploader, plus the request's orderId, url, caption and kind |
| Images.Post | app/api/images/route.ts:36-66 | Auth errors go through handleApiError. UTLEIER gets 403 before the body is parsed, and a schema failure goes through handleApiError. With a valid body, an unknown order gives 404. An unassigned worker gets 403 "Not assigned to order". ADMIN or the assigned worker gets 201 with the new image. Only a 201 changes the store, and it appends exactly the new image |
| Images.AdminAttachesAnywhere | app/api/images/route.ts:46-50 | An admin may add an image to any existing order |
| ImageUpload.NonEmpty | app/api/images/upload/route.ts:33-34 | An empty caption or kind is stored as absent |
| ImageUpload.Post | app/api/images/upload/route.ts:7-43 | Auth errors go through handleApiError. UTLEIER gets 403. A body that is not form data ends as 500. With a file and an orderId, an unknown order gives 404 and an unassigned worker gets 403. A permitted caller with a real file gets 201 with the saved URL, the caller as uploader, and an empty caption or kind left absent. A text "file" entry ends as 500. Only a 201 stores the image |
| ImageUpload.UnassignedWorkerRefused | app/api/images/upload/route.ts:24-28 | An unassigned worker gets 403 and nothing is stored |
| ImageUpload.MissingFieldsAre400 | app/api/images/upload/route.ts:20 | A missing file or orderId gives 400 |
| Upload.Sanitize | lib/upload.ts:18 | The output has only `[A-Za-z0-9.-]` and `_`. Its UTF-16 length equals the input's. An all-allowed name is unchanged |
| Upload.SanitizeOne | lib/upload.ts:18 | An allowed character is kept. Any other character becomes one `_` per UTF-16 code unit |
| Upload.SanitizeAppend | lib/upload.ts:18 | The replacement works character by character: sanitising a concatenation sanitises each part in place |
| Upload.SanitizeIdempotent | lib/upload.ts:18 | Sanitising twice is the same as once |
| Upload.SanitizeFixesUnderscores | lib/upload.ts:18 | Strings of allowed characters and underscores are fixed points |
| Js.DecimalRoundTrip | lib/upload.ts:18 | The timestamp rendering reads back as the number, with no leading zero |
| Upload.SaveUpload | lib/upload.ts:4-23 | With VERCEL=1 it returns a data URL whose MIME type defaults to application/octet-stream. Otherwise it returns "/uploads/" + timestamp + "-" + sanitised name, with no "/" after the prefix |
| Comments.CanAccessImage | app/api/comments/route.ts:7-14 | False for an unknown image. For an image whose order is in the store, it is the image-listing rule applied to that order, so ADMIN is always allowed. It is an error exactly when the image's order is missing |
| Comments.AccessFollowsOrder | app/api/comments/route.ts:10-13 | For an existing image and order: ADMIN, the order's landlord as UTLEIER, or its assignee as TJENESTE, and nobody else |
| Comments.CommentsOf | app/api/comments/route.ts:26-30 | Exactly the image's comments, oldest first |
| Comments.Get | app/api/comments/route.ts:16-36 | Auth errors go through handleApiError and give 401. A missing imageId gives 400. Denied access gives 403. 200 exactly when access is granted |
| Comments.NewComment | app/api/comments/route.ts:47-52 | A new comment records the caller as author, plus the request's imageId and text |
| Comments.Post | app/api/comments/route.ts:38-60 | Auth errors go through handleApiError. The body is parsed before access is checked, so a schema failure ends as 500 whatever the access. Denied access gives 403. Granted access gives 201 with the new comment. Only a 201 changes the store, and it appends exactly the new comment |
| Notifications.Inbox | app/api/notifications/route.ts:10-14 | At most 20 of the caller's own notifications, newest first, drawn from the table |
| Notifications.InboxSize | app/api/notifications/route.ts:13 | The page is full unless the caller has fewer than 20 notifications, in which case all are returned |
| Notifications.InboxIsNewest | app/api/notifications/route.ts:12-13 | Any own notification left off the page is no newer than every one on it |
| Listing.TakeKeepsFirst | app/api/notifications/route.ts:12-13 | Of a listing sorted on createdAt, every row that `take` cuts off comes after, in that order, every row it keeps |
| Notifications.Get | app/api/notifications/route.ts:7-20 | Unauthenticated callers get 401. Others get their inbox |
| Notifications.Post | app/api/notifications/route.ts:22-37 | Auth errors and schema failures go through handleApiError. UTLEIER gets 403. ADMIN or TJENESTE with a valid body gets 201, for any userId with no ownership check. The answer is the created notification, which is appended to the table |
| Notifications.SentReachesRecipient | app/api/notifications/route.ts:29-33 | After a 201, the recipient has exactly one more notification, and every other user has as many as before |
| AdminStats.Count | app/api/admin/stats/route.ts:10-15 | activeOrders is the number of PENDING or IN_PROGRESS orders and completedOrders the number of COMPLETED ones, and together they are all orders. landlords and workers are the numbers of active users whose stored role is UTLEIER and TJENESTE |
| AdminStats.StoredRoleCountsBounded | app/api/admin/stats/route.ts:13-14 | Active landlords, active workers, and admins or inactive users split the user table |
| AdminStats.Get | app/api/admin/stats/route.ts:6-21 | 200 exactly for an effective ADMIN. Other authenticated callers get 403 and unauthenticated ones get 401 |
| Middleware.Decide | middleware.ts:6-26 | No token on a non-public path redirects to /login, and this comes before the admin gates. A non-ADMIN token on "/admin…" redirects to /dashboard. One on "/api/admin…" gets 403 JSON. An ADMIN token always proceeds |
| Middleware.PublicCharacterised | middleware.ts:4-8 | Public exactly when the path is one of the five listed paths or starts with "/api/auth" |
| Middleware.AuthPrefixIsPublic | middleware.ts:8 | "/api/authx" is public |
| Middleware.AnonymousAdminGoesToLogin | middleware.ts:13-23 | No admin path is public, so anonymous requests to them go to /login |
| Auth.Authorize | lib/auth.ts:33-58 | Missing credentials give null. Sign-in succeeds exactly for an active user with a matching password, and returns its id, name, email and stored role |
| Auth.InactiveNeverSignsIn | lib/auth.ts:42-44 | An inactive user never signs in |
| Auth.Jwt | lib/auth.ts:11-17 | Role and id are copied into the token only when a user is present, with a missing id becoming "" |
| Auth.Session | lib/auth.ts:18-24 | The session's id and role come from the token |
| Auth.SignInReachesSession | lib/auth.ts:11-24 | After sign-in, the session carries the user's id and stored role |
| ModuleRegistry.Register | core/module-registry.ts:6-8 | The key maps to the new handler, and every other key keeps its handler |
| ModuleRegistry.Resolve | core/module-registry.ts:10-18 | Fails with "Module k not found" exactly for an unregistered key. Otherwise it applies the handler to the arguments |
| ModuleRegistry.RegisteredHandlerResolves | core/module-registry.ts:6-17 | After register(k, h), resolve(k, args) is h(args) |
| ModuleRegistry.RegisterIsLocal | core/module-registry.ts:7 | Registering one key does not change how any other key resolves |
| ModuleRegistry.ReRegisterOverwrites | core/module-registry.ts:7 | Re-registering a key replaces its previous handler |
| ModuleRegistry.MissingModuleIs500 | core/module-registry.ts:13-15 | A missing module surfaces as 500 |
| Payments.CreatePaymentIntent | lib/payments/provider.ts:13-19 | provider is "stub", status is pending, and the id is "pi_" followed by the orderId |
| Payments.IntentIdsDistinct | lib/payments/provider.ts:16 | Distinct orderIds give distinct intent ids |
| Payments.AmountAndCurrencyIgnored | lib/payments/provider.ts:13-19 | The amount and currency do not affect the result |

## Left out

- Database I/O. Each table is a snapshot sequence and queries are pure functions over it.
- Transactions, connection failures and foreign-key checks on insert. Two insert failures are modelled. Sign-up takes an explicit store-failure parameter. An order insert fails when an admin's truthy landlordId is not a string. Every other creation succeeds.
- Prisma's relation includes: landlord and assignee on orders, uploader and comments on images, author on comments. Listings return the rows themselves.
- The store's row order for equal `createdAt` values is left open by the source. The model's sort keeps table order for ties.
- The store's column defaults are not part of this model. A new user is taken as active. A new order is taken as PENDING with no assignee. A notification's read flag is not modelled.
- bcrypt, zod's email / url / datetime checks and the ServiceType values are parameters. So are `Date.now()` and base64 encoding.
- NextAuth's own machinery (cookies, JWT signing, `getToken` with two secret lookups) is not modelled. The model receives its results: an optional session user or token.
- The middleware's `matcher` (static assets bypass the middleware) is not modelled.
- The file-system writes and `mkdir` in the upload helper. Only the returned URL is modelled.
- JSON numbers are integers. Fractions and NaN are not modelled; they matter only for truthiness of `landlordId`.
- Lone UTF-16 surrogates cannot be represented in a Dafny string.
- Error messages of SyntaxError, TypeError, ZodError and the store's validation and inconsistent-result errors are stand-ins. Only the properties the handlers test are kept: none is a marker, and none names a database failure. A ZodError's message starts with '['.
- Every image's order exists in a consistent store, because the relation is required. Comments.CanAccessImage still covers a store that breaks this: the lookup is an error for every role, and its exact wording is a stand-in.
- Api.ApiError carries no contract of its own, because it is the definition of the `{error}` response. Its promise is stated through Api.HandleApiError.
- Register.Post: a store failure is modelled as thrown by the insert. A failure of the email lookup would take the same catch mapping.
- The order detail / update / delete, claim, assign, chat message, notification read, user listing and user detail handlers are not part of this model. The order claim, conflict and chat-recipient rules and the order status state machine are therefore not modelled.
- UI components, React context, local storage, seed and smoke scripts, and the health check.
- Concurrency: the parallel counts in the statistics and concurrent claims.
- ModuleRegistry.Resolve: handlers are total functions. A handler's own exceptions and its asynchrony are not modelled.
- The optional `currency` of a payment request is a plain string, because the stub ignores it either way.
