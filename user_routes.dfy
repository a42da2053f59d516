/** The `/user/me` endpoints: reads scoped to the caller that `get_current_user` resolved. */
module UserRoutes {
  import opened Wrappers
  import opened Errors
  import opened Models
  import opened Schemas
  import opened Crud
  import opened Jwt
  import opened Config
  import opened Security

  /** `GET /user/me`: the stored row with the caller's id, or 404. */
  function GetCurrentUserInfo(store: Store, currentUser: User): (r: Result<UserView, Error>)
    reads store
    requires store.Valid()
    ensures r.Ok? <==> currentUser.id in store.users
    ensures r.Ok? ==> r.value == View(store.users[currentUser.id]) && r.value.id == currentUser.id
    ensures r.Err? ==> r.error == Status(NotFound, UserNotFound)
  {
    var user := store.GetUserById(currentUser.id);
    if user.None? then Err(Status(NotFound, UserNotFound)) else Ok(View(user.value))
  }

  /** `GET /user/me/accounts`: exactly the accounts the caller owns. */
  function GetMyAccounts(store: Store, currentUser: User): (r: set<Account>)
    reads store
    ensures forall a :: a in r <==> a in store.accounts.Values && a.ownerId == currentUser.id
  {
    store.GetUserAccounts(currentUser.id)
  }

  /** `GET /user/me/payments`: exactly the payments booked on accounts the caller owns. */
  function GetMyPayments(store: Store, currentUser: User): (r: set<Payment>)
    reads store
    ensures forall p :: p in r <==>
              p in store.payments && p.accountId in store.accounts && store.accounts[p.accountId].ownerId == currentUser.id
  {
    store.GetUserPayments(currentUser.id)
  }

  datatype Route = Me | MyAccounts | MyPayments

  datatype Response = Info(user: UserView) | Accounts(accounts: set<Account>) | Payments(payments: set<Payment>)

  function AsInfo(res: Result<UserView, Error>): Result<Response, Error>
  {
    match res
    case Err(e) => Err(e)
    case Ok(v) => Ok(Info(v))
  }

  /**
   * A request to one of the three routes: the `Depends(get_current_user)` step
   * runs first and its failure is the answer; only then does the handler run,
   * with the resolved caller. Since that caller was just read from the same
   * store, `/user/me` never answers 404 here.
   */
  function Serve(route: Route, store: Store, credentials: Token, cfg: Settings, now: int): (r: Result<Response, Error>)
    reads store
    requires store.Valid()
    ensures GetCurrentUser(store, credentials, cfg, now).Err? ==> r == Err(GetCurrentUser(store, credentials, cfg, now).error)
    ensures GetCurrentUser(store, credentials, cfg, now).Ok? ==>
      var caller := GetCurrentUser(store, credentials, cfg, now).value;
      match route
      case Me => r == Ok(Info(View(caller)))
      case MyAccounts => r.Ok? && r.value.Accounts? && forall a :: a in r.value.accounts <==> a in store.accounts.Values && a.ownerId == caller.id
      case MyPayments => r.Ok? && r.value.Payments? && forall p :: p in r.value.payments <==> p in store.payments && store.OwnsPayment(caller.id, p)
  {
    match GetCurrentUser(store, credentials, cfg, now)
    case Err(e) => Err(e)
    case Ok(currentUser) =>
      match route
      case Me =>
        AsInfo(GetCurrentUserInfo(store, currentUser))
      case MyAccounts => Ok(Accounts(GetMyAccounts(store, currentUser)))
      case MyPayments => Ok(Payments(GetMyPayments(store, currentUser)))
  }
}
