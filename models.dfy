/** The three tables' rows and the role validation of the `User` entity. */
module Models {
  import opened Wrappers
  import opened Errors

  const UserRole := "user"
  const AdminRole := "admin"

  /** Column default of `accounts.balance`. */
  const DefaultBalance: real := 0.0

  datatype User = User(id: int, email: string, hashedPassword: string, fullName: string, role: string)
  datatype Account = Account(id: int, balance: real, ownerId: int)
  datatype Payment = Payment(id: int, transactionId: string, amount: real, accountId: int)

  /** A role that `validate_role` lets through. */
  predicate IsRole(role: string)
  {
    role == UserRole || role == AdminRole
  }

  /** `User.validate_role`: runs whenever `role` is assigned on a `User` object. */
  function ValidateRole(role: string): (r: Result<string, Fault>)
    ensures r == Ok(role) || r == Err(InvalidRoleError)
    ensures r.Ok? <==> role == "user" || role == "admin"
  {
    if role in [UserRole, AdminRole] then Ok(role) else Err(InvalidRoleError)
  }
}
