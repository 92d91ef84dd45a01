/** The values the service passes around (internal/app/models/token.go) and its errors. */
module Models {

  /**
   * The claims of an access token: the user and the client address it was
   * issued to, plus the two registered claims of RFC 7519 (section 4.1) that
   * the service sets from the embedded jwt.StandardClaims, as Unix seconds.
   * The other standard claims are left at their zero values by the service
   * and are not modelled.
   */
  datatype TokenClaims = TokenClaims(userID: string, clientIP: string, expiresAt: int, issuedAt: int)

  /** The errors the core can return to its caller. */
  datatype Error =
    | ShortRead            // the random source delivered fewer bytes than asked for
    | NoRows               // the store has no record for the user
    | InvalidAccessToken   // "invalid access token": claims of the wrong shape, or not valid
    | InvalidRefreshToken  // "invalid refresh token": the secret does not match the stored hash
    | Library(reason: string)   // an error from the token or hashing library, passed through
    | Database(reason: string)  // an error from the database connection, passed through
}
