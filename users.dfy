/** The `users` table: roles and the user row with its column defaults. */
module Users {
  import opened Wrappers

  /** The three roles, each with the value stored in the database and put in tokens. */
  datatype Role = Patient | Doctor | Admin {
    function Value(): string {
      match this
      case Patient => "Paciente"
      case Doctor => "Doctor"
      case Admin => "Admin"
    }
  }

  /** Distinct roles have distinct values, so the role claim in a token identifies it. */
  lemma RoleValueInjective(a: Role, b: Role)
    ensures a.Value() == b.Value() <==> a == b
  {
  }

  /** A row of `users`. `googleRefreshToken` is set only once a doctor links a calendar. */
  datatype User = User(
    id: int,
    fullName: Option<string>,
    email: string,
    hashedPassword: string,
    role: Role,
    isActive: bool,
    googleRefreshToken: Option<string>)

  /** The row the ORM inserts for `User(email=..., hashed_password=..., full_name=..., role=...)`:
      a role left out defaults to PATIENT, `is_active` to true, the refresh token to NULL. */
  function NewUser(id: int, email: string, hashedPassword: string, fullName: Option<string>, role: Option<Role>): (u: User)
    ensures u.id == id && u.email == email && u.hashedPassword == hashedPassword && u.fullName == fullName
    ensures u.role == (if role.Some? then role.value else Patient)
    ensures u.isActive && u.googleRefreshToken == None
  {
    User(id, fullName, email, hashedPassword, role.GetOr(Patient), true, None)
  }

  /** Python's truth test on a token: None and "" both fail it. */
  predicate HasToken(token: Option<string>) {
    token.Some? && token.value != ""
  }

  /** `if not user.google_refresh_token`, negated: NULL and "" are both "no token". */
  predicate HasRefreshToken(u: User) {
    HasToken(u.googleRefreshToken)
  }

  /** The `unique=True` constraint on `email`. */
  ghost predicate UniqueEmails(users: seq<User>) {
    forall i, j :: 0 <= i < |users| && 0 <= j < |users| && users[i].email == users[j].email ==> i == j
  }

  ghost predicate UniqueIds(users: seq<User>) {
    forall i, j :: 0 <= i < |users| && 0 <= j < |users| && users[i].id == users[j].id ==> i == j
  }

  /** `query(User).filter(User.email == email).first()`, as an index. */
  function FindByEmail(users: seq<User>, email: string): (k: Option<nat>)
    ensures k.Some? ==> k.value < |users| && users[k.value].email == email
    ensures k.Some? ==> forall j :: 0 <= j < k.value ==> users[j].email != email
    ensures k.None? <==> forall j :: 0 <= j < |users| ==> users[j].email != email
  {
    if users == [] then None
    else if users[0].email == email then Some(0)
    else match FindByEmail(users[1..], email)
      case None => None
      case Some(k) => Some(k + 1)
  }

  /** `query(User).filter(User.id == id).first()`; a payload without `user_id`
      compares with NULL and matches no row. */
  function FindById(users: seq<User>, id: Option<int>): (u: Option<User>)
    ensures u.Some? ==> id.Some? && u.value in users && u.value.id == id.value
    ensures u.None? <==> id.None? || forall j :: 0 <= j < |users| ==> users[j].id != id.value
  {
    if id.None? || users == [] then None
    else if users[0].id == id.value then Some(users[0])
    else FindById(users[1..], id)
  }
}
