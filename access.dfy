/** The two expiring credential records of src/access.go. */
module Access {

  /** A platform-level credential and the Unix second after which it is stale. */
  datatype ExpireData = ExpireData(value: string, expiredAt: int)

  /** A tenant's authorizer token; its refresh token has no expiry of its own. */
  datatype AppAccessToken = AppAccessToken(accessToken: string, expireAt: int, refreshToken: string)

  /** The zero values Go gives the records before decoding into them. */
  const ZeroExpireData := ExpireData("", 0)
  const ZeroAppAccessToken := AppAccessToken("", 0, "")
}
