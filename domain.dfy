/** The records the service stores (internal/domain/user.go, internal/domain/sessoin.go).
    Times are Unix seconds. */
module Domain {

  /** `domain.Session`: `refreshToken` holds the bcrypt hash of the raw refresh token. */
  datatype Session = Session(fingerPrint: string, refreshToken: string, expiresAt: int, createdAt: int)

  /** `domain.User`: `guid` is the hex form of the document's `_id`. */
  datatype User = User(guid: string, username: string, sessions: seq<Session>)

  /** `domain.User{}`, the zero value. */
  const ZeroUser := User("", "", [])
}
