/** Request and response bodies. */
module Schemas {
  import opened Wrappers
  import opened Models

  datatype UserLogin = UserLogin(email: string, password: string)

  datatype UserCreate = UserCreate(email: string, hashedPassword: string, fullName: string, role: string)

  /**
   * The fields a PATCH request sets; `None` is a field left unset, which
   * `dict(exclude_unset=True)` leaves out.
   */
  datatype UserUpdate = UserUpdate(email: Option<string>, fullName: Option<string>, role: Option<string>)

  /** `UserResponse`: what a client sees of a user. It has no password hash. */
  datatype UserView = UserView(id: int, email: string, fullName: string, role: string)

  function View(u: User): UserView
  {
    UserView(u.id, u.email, u.fullName, u.role)
  }

  datatype WebhookPayload = WebhookPayload(
    transactionId: string,
    userId: int,
    accountId: int,
    amount: real,
    signature: string)
}
