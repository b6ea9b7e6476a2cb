/** The user record of the server's user collection. */
module Users {
  import opened Wrappers

  type UserId = string

  /** The schema's fields, plus the two password-reset fields that the
      authentication routes read and write. `permissions` is the schema's flat
      list of names, not the per-purpose read/write records of the client. */
  datatype User = User(
    id: UserId,
    username: string,
    password: string,
    email: Option<string>,
    university: string,
    isAdmin: bool,
    permissions: seq<string>,
    attended: seq<string>,
    resetToken: Option<string>,
    resetTokenExpiry: Option<int>)
}
