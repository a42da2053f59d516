# Payments service core, modelled in Dafny

This project models the core of a small payments back end, originally a FastAPI
service over PostgreSQL:

- **Webhook intake.** An external payment system posts a notification. The
  service checks its SHA-256 signature against a shared secret. It refuses a
  transaction id it has already booked. It opens the target account when the
  account is missing. Then it records the payment and credits the balance.
- **The store** (`Crud.Store`). This is a class over the three tables: users,
  accounts, and an append-only payments ledger. It also holds the serial
  sequences behind the generated ids. `Valid()` lists the constraints the
  database enforces. The migration creates `users` and `accounts`: primary
  keys, unique email, and the owner foreign key with ON DELETE CASCADE. The ORM
  model defines `payments`: primary key, unique transaction id, and the account
  foreign key with no ON DELETE action. Each write either commits or fails with `IntegrityError`,
  and a failed write changes nothing except the sequence it drew from.
- **Authentication.**
  - JWT access and refresh tokens, with an expiry and a `type` claim.
  - Password login.
  - The `get_current_user` gate that every protected route depends on.
  - Refresh of an access token.
- **The routes.** The admin routes are gated on `role == "admin"` and return
  403 before any read or write. The `/user/me` routes are scoped to the
  resolved caller.

Module layout follows the source:

| module | source file |
|---|---|
| `Models` | `database/models.py` |
| `Schemas` | `database/schemas.py` |
| `Crud` | `database/crud.py` |
| `Security` | `security.py` |
| `Jwt` | the JWT library, as an ideal signature scheme |
| `Login`, `Admin`, `UserRoutes`, `Webhook` | the routers |
| `Config` | `config.py` |

`Wrappers`, `Errors`, `Strings` and `Externals` are support modules.

Pure code is written as functions and lemmas. Code that changes the database is
written as methods on `Store` or as methods that call them, with `modifies`
frames. The `setattr` loop of the admin update is a `for` loop proved against
`Patched`.

The webhook's signed message follows the code. Compare it with the
alternative order account_id, amount, transaction_id, user_id, secret: every
field except the signature, in key order, then the secret
(`Webhook.SenderMessage`). The code hashes something else. `sorted(payload.dict().items())` orders the keys as account_id,
amount, signature, transaction_id, user_id. `pop()` then drops `user_id`, and
the secret is appended. So the digest is taken over
account id ++ amount ++ signature ++ transaction id ++ secret
(`Webhook.SignedMessageFields`). Two consequences are proved:

- The user id is not covered by the signature (`Webhook.SignatureIgnoresUserId`).
- For every payload whose signature is not exactly as long as the user id's
  decimal text, the hashed message differs from the alternative one
  (`Webhook.FieldOrderMessage`).
- So a 64-character digest over the alternative message, for a user id in the
  range of an `Integer` column, is checked against a different message. It
  verifies only if the two messages have the same digest
  (`Webhook.FieldOrderSignature`).

External code appears as parameters (`Externals.Primitives`):

- the SHA-256 hex digest;
- Python's `str(float)`;
- bcrypt password verification.

The clock is an integer `now`, in seconds. Configuration comes in as a
`Config.Settings` value.

## Model

| member | source | states |
|---|---|---|
| Models.ValidateRole | database/models.py:17-21 | returns its argument unchanged exactly when it is "user" or "admin"; any other role is refused |
| Crud.Store.Valid | database/models.py:9-39 | primary keys match the row ids; emails are unique; every account's owner is a stored user; transaction ids and payment ids are unique; every payment's id was drawn from the sequence and its account is stored |
| Crud.Store.RolesValid | database/models.py:17-21 | every stored role is "user" or "admin" |
| Crud.Store.constructor | database/models.py:7-41 | an empty database that satisfies both invariants, with both sequences at 1 |
| Crud.FindAppended | database/crud.py:96-100 | a payment appended under a transaction id the ledger lacks is the one the lookup finds |
| Crud.LedgerAppend | database/models.py:34-39 | appending a payment with a new transaction id, the next sequence value and a stored account keeps the payments table's constraints, and the lookup then finds it |
| Crud.FindByTransaction | database/crud.py:96-100 | finds a payment of the ledger with that transaction id, and finds none exactly when no payment carries it |
| Crud.LedgerSumAppend | routers/webhook.py:56 | appending a payment adds its amount to its own account's ledger sum and nothing to any other account's |
| Crud.Store.GetUserByEmail | database/crud.py:9-13 | some user exactly when a stored user has that email; it is that stored row, and the only one with that email |
| Crud.Store.GetUserById | database/crud.py:16-20 | some user exactly when the id is stored, and then the row with that id |
| Crud.Store.GetAllUsers | database/crud.py:23-27 | exactly the stored rows |
| Crud.Store.GetUserAccounts | database/crud.py:52-56 | exactly the accounts whose owner is the given user |
| Crud.Store.GetUserPayments | database/crud.py:59-63 | exactly the payments booked on an account the given user owns |
| Crud.Store.GetAccountById | database/crud.py:74-78 | some account exactly when the id is stored, and then that row |
| Crud.Store.GetPaymentByTransactionId | database/crud.py:96-100 | some payment exactly when one with that transaction id is recorded, and then one that has it |
| Crud.Store.CreateUser | database/crud.py:30-35 | inserts the row under the next sequence value; fails with IntegrityError, leaving the users unchanged, when that id or the email is taken; the sequence advances either way; keeps the constraints |
| Crud.Store.UpdateUser | database/crud.py:38-42 | overwrites the given columns of that user only; no-op for an absent id; IntegrityError and no change when the new email belongs to another user |
| Crud.Store.DeleteUser | database/crud.py:45-49 | removes only that user and, by cascade, the accounts they own; fails with IntegrityError and no change exactly when a payment is booked on one of those accounts; no-op for an absent id |
| Crud.Store.CreateAccount | database/crud.py:66-71 | inserts the account, after which it is found by id; IntegrityError and no change when the id is taken or the owner does not exist |
| Crud.Store.UpdateAccountBalance | database/crud.py:81-85 | adds the amount to that account's balance only; no-op for an absent id |
| Crud.Store.CreatePayment | database/crud.py:88-93 | appends exactly one payment under the next sequence value, after which it is found by its transaction id; IntegrityError and no change for a known transaction id or a missing account |
| Jwt.Decode | security.py:57 | succeeds exactly when the token was encoded with this key and algorithm and has no `exp`, or an `exp` later than now; it then returns the encoded claims |
| Security.CreateAccessToken | security.py:20-26 | the caller's claims plus `exp = now + delta` and `type = "access"`, with every other key copied unchanged; the token decodes to those claims before `exp` and fails to decode from `exp` on |
| Security.CreateRefreshToken | security.py:29-35 | the same, with `type = "refresh"` |
| Security.VerifyPassword | security.py:38-40 | delegates to the bcrypt verification parameter |
| Security.AuthenticateUser | security.py:43-49 | returns the stored user with that email exactly when one exists and the password verifies against its hash; otherwise nothing, with no difference between the two failure cases |
| Security.GetCurrentUser | security.py:52-68 | a decode failure gives 401 "Invalid authentication credentials"; a type other than "access" gives 401 "Invalid token type"; a missing `sub` gives 401 "Invalid authentication credentials"; an unknown email gives 401 "User not found"; a non-string `sub` reaches the driver and fails; otherwise the stored user with that email |
| Security.RefreshToken | security.py:71-90 | the same checks with "refresh" required; on success a bearer access token whose sub, id and role come from the row currently stored, with `exp = now + ACCESS_TOKEN_EXPIRE_MINUTES` and `type = "access"`, signed with the configured key and algorithm so that it decodes to exactly those claims before that instant and not from then on |
| Security.RefreshTokenNeverAuthenticates | security.py:58-59 | a decodable refresh token is always refused by the access gate with 401 "Invalid token type" |
| Security.ExpiredTokenRejected | security.py:57-68 | a token whose `exp` has passed yields 401 at both the access gate and the refresh exchange |
| Security.RefreshedTokenResolves | security.py:84-90 | the access token a refresh exchange returns resolves to the stored user the refresh token names until now + ACCESS_TOKEN_EXPIRE_MINUTES, and to 401 afterwards |
| Security.IssuedAccessTokenResolves | security.py:20-26 | an access token issued for a stored user resolves to that user until it expires, and to 401 afterwards |
| Login.Login | routers/login.py:19-37 | 401 "Invalid credentials" and no tokens exactly when authentication fails; otherwise a bearer pair whose tokens carry the same sub, id and role of the authenticated user, types "access" and "refresh", and expiries now + ACCESS_TOKEN_EXPIRE_MINUTES and now + REFRESH_TOKEN_EXPIRE_MINUTES |
| Login.LoginTokensServeTheirPurpose | routers/login.py:26-35 | while each lives, the access token authenticates the user and is refused by the refresh exchange, and the refresh token is refused by the access gate and is exchanged for an access token of the same user |
| Login.RefreshGrantsAccess | routers/login.py:26-35 | while the login's refresh token lives, exchanging it succeeds, and the access token it yields authenticates the user who logged in from the exchange until ACCESS_TOKEN_EXPIRE_MINUTES later, and gives 401 from then on |
| UserRoutes.GetCurrentUserInfo | routers/user.py:17-25 | the stored row with the caller's id, or 404 "User not found" exactly when there is none |
| UserRoutes.GetMyAccounts | routers/user.py:31-35 | exactly the accounts the caller owns |
| UserRoutes.GetMyPayments | routers/user.py:41-45 | exactly the payments booked on accounts the caller owns |
| UserRoutes.Serve | routers/user.py:17-45 | each route answers with the gate's error when `get_current_user` fails, and otherwise with the caller-scoped result; `/user/me` then never returns 404 |
| Admin.OverlaySetFields | routers/admin.py:93-94 | setting the patch's set fields in order yields the record with exactly those fields replaced |
| Admin.ApplyUpdates | routers/admin.py:93-94 | fails with the role validator's error exactly when the patch sets an invalid role; otherwise the stored record with exactly the set fields replaced, keeping id and password hash |
| Admin.GetAllUsersList | routers/admin.py:22-30 | 403 for a non-admin; otherwise, for every stored user, exactly its id, email, full name and role, never the password hash |
| Admin.GetUser | routers/admin.py:61-72 | 403 for a non-admin; 404 for an absent id; otherwise the row with that id |
| Admin.GetUserAccountsList | routers/admin.py:124-132 | 403 for a non-admin; otherwise exactly the accounts that user owns |
| Admin.CreateNewUser | routers/admin.py:38-53 | 403 and no change for a non-admin; an invalid role is refused before the insert; otherwise the row with exactly the given email, hash, name and role is inserted, or IntegrityError on a taken email |
| Admin.UpdateExistingUser | routers/admin.py:81-100 | 403 and no change for a non-admin; 404 and no change for an absent id; an invalid role is refused with no change; otherwise the stored row becomes the patched row, or IntegrityError and no change if its email is taken by another user |
| Admin.DeleteExistingUser | routers/admin.py:108-116 | 403 and no change for a non-admin; otherwise "User deleted" whether or not the id existed, unless a payment blocks the cascade |
| Strings.SortByKey | routers/webhook.py:24 | `sorted(..., key=lambda x: x[0])`: the result is in ascending key order and as long as the input |
| Strings.SortByKeyPermutes | routers/webhook.py:24 | the sorted list is a permutation of the input |
| Webhook.KeyOrder | routers/webhook.py:24 | the payload's keys compare as account_id < amount < signature < transaction_id < user_id |
| Webhook.SortedItems | routers/webhook.py:24 | sorting the payload's fields by key gives account_id, amount, signature, transaction_id, user_id |
| Webhook.SignedMessage | routers/webhook.py:24-27 | sorts the fields by key, drops the last one, appends the secret and concatenates the values' `str` |
| Webhook.SignedMessageFields | routers/webhook.py:24-27 | the hashed message is the account id, the amount, the signature, the transaction id and the secret, in that order |
| Webhook.VerifySignature | routers/webhook.py:21-29 | true exactly when the SHA-256 hex digest of that message equals the supplied signature |
| Webhook.SignatureIgnoresUserId | routers/webhook.py:25 | changing the user id never changes the verdict |
| Webhook.FieldOrderMessage | routers/webhook.py:24-27 | the hashed message and the alternative one (account id, amount, transaction id, user id, secret) have equal length exactly when the signature and the user id's text have equal length, and otherwise differ |
| Webhook.FieldOrderSignature | routers/webhook.py:24-29 | for a 64-character digest and a 32-bit user id, a signature over the alternative message is checked against a different message, and verifies exactly when the two messages have the same digest |
| Webhook.LedgerSumUnbooked | routers/webhook.py:44-48 | an account with no payments has ledger sum 0 |
| Webhook.OpenAccount | routers/webhook.py:44-48 | an existing account is kept; a missing one is opened with that id, the payload's user as owner and balance 0, or the insert fails with IntegrityError and no change when that user is missing; a newly opened account has ledger sum 0 |
| Webhook.Record | routers/webhook.py:50-57 | on an existing account and a new transaction id, appends exactly the payment under the next sequence value and credits only that account by the amount |
| Webhook.CreditKeepsUnledgered | routers/webhook.py:56-57 | appending a payment while crediting its own account by its amount keeps every account's balance minus its ledger sum |
| Webhook.Deposit | routers/webhook.py:44-60 | for a new transaction id: IntegrityError and no change exactly when the account and its user are both missing; otherwise the new account map and ledger, with every balance minus ledger sum preserved |
| Webhook.Book | routers/webhook.py:39-60 | a known transaction id gives 400 "Transaction already processed" and no change; a missing account whose user is also missing fails with IntegrityError and no change; otherwise a missing account is opened with that id, that owner and balance 0, an existing account keeps its owner, exactly one payment is appended, only the target balance grows by the amount, and every account's balance minus its ledger sum is preserved |
| Webhook.ProcessWebhook | routers/webhook.py:32-60 | a bad signature gives 400 "Invalid signature" and no change; after that, the outcomes of `Book` |
| Webhook.Redeliver | routers/webhook.py:39-42 | after a booked delivery, a second one with the same transaction id is refused, and the payment is recorded and credited once |

## Left out

- Cryptography: SHA-256, JWT signing and bcrypt. These are parameters, or an ideal signature scheme for JWT. No property of the digest is assumed anywhere except in `Webhook.FieldOrderSignature`, which takes as a hypothesis that every digest is 64 characters long.
- Floating point: amounts and balances are reals, and `str(float)` is a parameter.
- Async execution and concurrency: the model runs one request at a time, so races on the uniqueness checks are not modelled.
- Logging.
- FastAPI routing, HTTPBearer extraction and response serialisation: handlers return `Result` values, and routes return a plain string where the source returns `{"detail": ...}`.
- `datetime.utcnow()` is the parameter `now`; `timedelta(minutes=m)` becomes `60 * m` seconds.
- Environment reads in config.py: the settings are a parameter.
- main.py, database/postgre_db.py and routers/auth.py are not part of this model.
- The migration's seed rows.
- The column default of `users.role`: every insert supplies a role, so it never applies.
- Admin.ApplyUpdates: `UserUpdate` is modelled with optional fields, matching `exclude_unset=True`, although the schema declares all three as required.
- Admin.UpdateExistingUser: the `id` key that `user.__dict__` also carries is written back unchanged and is not modelled as a column.
- Jwt.Decode: PyJWT's checks on `iat`, `nbf` and other registered claims are not modelled, and neither is a non-numeric `exp` (the model treats it as a decode failure).
- Login.Login: one `now` serves both tokens, although the source reads the clock twice.
- Security.AuthenticateUser: passlib's `ValueError` on a hash it cannot identify is not modelled; such a hash can reach the store because the admin routes store `hashed_password` as given. The bcrypt parameter is total and returns a verdict instead.
- Strings.SortByKey: stability is not stated as a contract, because the payload's keys are pairwise distinct.
- Security.GetCurrentUser: a non-string `sub` is modelled as a database `DataError` because the driver's behaviour is not visible.
- Security.RefreshToken: the same for a non-string `sub` in a refresh token.
- Integer width: every id is an unbounded `int`, although the id columns (`users.id`, `accounts.id`, `accounts.owner_id`, `payments.id`, `payments.account_id`) are 32-bit `Integer`. An id outside [-2^31, 2^31) makes the driver or the database fail the statement, which surfaces as a 500. The model does not produce that failure: `Admin.GetUser` answers 404 for such an id, and `Webhook.Book` books a payment on it and opens an account with it.
