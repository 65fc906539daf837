/** The domain records: users, groups and group memberships. */
module Models {
  import opened Errors

  /** `UserModel`: email, password and username, with `id` and `email_verified` defaulted. */
  datatype User = User(email: string, password: string, username: string, id: int, emailVerified: bool)

  /** `GroupMemberModel`: a membership is identified by its group and its user, so a set
      of them collapses duplicates. */
  datatype GroupMember = GroupMember(groupId: int, userId: int)

  /** `GroupModel`. `owner_id` is `Optional` where a group is built from a scheme
      whose owner was left out; `members` defaults to the empty set. */
  datatype Group = Group(name: string, ownerId: Option<int>, id: int, members: set<GroupMember>)

  /** `UserModel(email, password, username)` with the dataclass defaults. */
  function NewUser(email: string, password: string, username: string): (u: User)
    ensures u.id == 0 && !u.emailVerified
    ensures u.email == email && u.password == password && u.username == username
  {
    User(email, password, username, 0, false)
  }

  /** `UserModel.protect_password`: the secret is blanked, every other field is kept. */
  function ProtectPassword(u: User): (r: User)
    ensures r.password == ""
    ensures r.email == u.email && r.username == u.username
    ensures r.id == u.id && r.emailVerified == u.emailVerified
  {
    u.(password := "")
  }

  lemma ProtectPasswordIdempotent(u: User)
    ensures ProtectPassword(ProtectPassword(u)) == ProtectPassword(u)
  {
  }
}
