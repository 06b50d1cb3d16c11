/** The caller identity that `getAuthUser` extracts from a request token. */
module Session {

  datatype AuthUser = AuthUser(id: string, role: string)

  predicate IsAdmin(user: AuthUser) {
    user.role == "admin"
  }
}
