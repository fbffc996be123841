/** The decoded records the screens display. */
module Models {

  /** A post as decoded from the service. */
  datatype Post = Post(userId: int, id: int, title: string, body: string)

  /** A decoded user. Only the identifier matters to the core; the other fields of the record are
      carried as one opaque token. */
  datatype User = User(id: int, details: UserDetails)

  datatype UserDetails = UserDetails(token: nat)
}
