/** The principal capability contract of user.go and its anonymous singleton. */
module Users {

  /**
   * A principal as the manager sees it: the four answers of the `User`
   * interface (IsAuthenticated, IsActive, IsAnonymous, GetId).
   */
  datatype User = User(authenticated: bool, active: bool, anonymous: bool, id: string)

  /** The principal that `AnonymousUser` stands for. */
  const AnonymousUser: User := User(false, false, true, "")

  /** The anonymous principal is never authenticated, never active, always anonymous, and has the empty id. */
  lemma AnonymousUserCapabilities()
    ensures !AnonymousUser.authenticated
    ensures !AnonymousUser.active
    ensures AnonymousUser.anonymous
    ensures AnonymousUser.id == ""
  {
  }
}
