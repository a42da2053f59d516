/** The failures a request can end with. */
module Errors {

  /** Exceptions that no handler catches; the framework answers them with status 500. */
  datatype Fault =
    | IntegrityError    // a primary-key, unique or foreign-key constraint refused the write
    | InvalidRoleError  // `User.validate_role` raised ValueError
    | DataError         // the database driver refused a parameter of the wrong type

  /** An `HTTPException(status_code, detail)` raised by a handler, or an unhandled fault. */
  datatype Error = Status(code: int, detail: string) | Unhandled(fault: Fault)

  const BadRequest := 400
  const Unauthorized := 401
  const Forbidden := 403
  const NotFound := 404

  const InvalidCredentials := "Invalid authentication credentials"
  const InvalidTokenType := "Invalid token type"
  const UserNotFound := "User not found"
  const LoginRejected := "Invalid credentials"
  const NotEnoughPermissions := "Not enough permissions"
  const InvalidSignature := "Invalid signature"
  const AlreadyProcessed := "Transaction already processed"
}
