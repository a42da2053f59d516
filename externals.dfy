/** Library code the core calls but that is not modelled: it is passed in as functions. */
module Externals {

  datatype Primitives = Primitives(
    sha256Hex: string -> string,             // hashlib.sha256(s.encode()).hexdigest()
    floatRepr: real -> string,               // Python's str(float)
    bcryptVerify: (string, string) -> bool)  // passlib's bcrypt verify(plain, hashed)
}
