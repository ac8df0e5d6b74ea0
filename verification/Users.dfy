// The signed-in user as the services see it, and the visibility a project or document has.
module Users {

  datatype Visibility = PRIVATE | TEAM | WORKSPACE | ORGANIZATION | PUBLIC

  datatype User = User(id: string, tenantId: string, permissions: set<string>)

  predicate HasAny(user: User, permissions: set<string>) {
    exists p :: p in permissions && p in user.permissions
  }
}
