/** The settings read from the environment; every operation receives them as a parameter. */
module Config {

  datatype Settings = Settings(
    secretKey: string,
    algorithm: string,
    accessTokenExpireMinutes: int,
    refreshTokenExpireMinutes: int)

  /** `timedelta(minutes = m)`, in seconds. */
  function Minutes(m: int): int
  {
    60 * m
  }
}
