/** The routes of users (`/users`), the staff of a broker tenant: the update builder,
    which stores a new password only as its digest, and the creation's error mapping. */
module UserRoutes {
  import opened Common
  import opened Strings
  import opened Sql

  // ---- PUT /users/{user_id} ----

  /** The request body of an update. */
  datatype UserUpdate = UserUpdate(
    name: Option<string>,
    email: Option<string>,
    password: Option<string>,
    role: Option<string>)

  function UpdateCandidate(u: UserUpdate, k: nat): Candidate<Change>
  {
    match k
    case 0 => Candidate(TruthyStr(u.name), Set("name", TextOrNull(u.name)))
    case 1 => Candidate(TruthyStr(u.email), Set("email", TextOrNull(u.email)))
    case 2 => Candidate(TruthyStr(u.password),
                Set("password_hash", if u.password.Some? then Digest(u.password.value) else Null))
    case _ => Candidate(TruthyStr(u.role), Set("role", TextOrNull(u.role)))
  }

  /** The update's fields in the order the route tests them, each when truthy. */
  function UpdateCandidates(u: UserUpdate): nat -> Candidate<Change>
  {
    (k: nat) => UpdateCandidate(u, k)
  }

  /** The SET list of an update, built field by field; a password is hashed first. */
  method UserChanges(u: UserUpdate) returns (updates: seq<Change>)
    ensures updates == Collected(UpdateCandidates(u), 4)
  {
    updates := [];
    if TruthyStr(u.name) { updates := updates + [Set("name", Text(u.name.value))]; }
    assert updates == Collected(UpdateCandidates(u), 1);
    if TruthyStr(u.email) { updates := updates + [Set("email", Text(u.email.value))]; }
    assert updates == Collected(UpdateCandidates(u), 2);
    if TruthyStr(u.password) {
      var passwordHash := Digest(u.password.value);
      updates := updates + [Set("password_hash", passwordHash)];
    }
    assert updates == Collected(UpdateCandidates(u), 3);
    if TruthyStr(u.role) { updates := updates + [Set("role", Text(u.role.value))]; }
  }

  /** The update: 400 before any SQL when nothing is written, otherwise one
      placeholder per parameter with the user id bound last; the reply is the
      returned row. */
  method UpdateUser<Row>(userId: int, u: UserUpdate, ran: Outcome<Row>) returns (sent: Option<Statement>, r: Result<Row>)
    ensures var updates := Collected(UpdateCandidates(u), 4);
      if updates == [] then sent == None && r == Failure(NoFieldsToUpdate)
      else sent == Some(UpdateStatement("users", updates, Int(userId))) &&
           r == Echo(ran, "User " + IntToString(userId) + " not found", "Failed to update user: ")
    ensures sent.Some? ==> WellFormed(sent.value) && sent.value.params[|sent.value.params| - 1] == Int(userId)
  {
    var updates := UserChanges(u);
    ColumnsSafe(u);
    PlainName("users");
    sent, r := SendUpdate("users", updates, Int(userId),
      Echo(ran, "User " + IntToString(userId) + " not found", "Failed to update user: "));
  }

  lemma ColumnsSafe(u: UserUpdate)
    ensures SafeColumns(Collected(UpdateCandidates(u), 4))
  {
    PlainName("name");
    PlainName("email");
    PlainName("password_hash");
    PlainName("role");
    CollectedSafe(UpdateCandidates(u), 4);
  }

  /** The 400 answer comes exactly when all four fields are falsy. */
  lemma NothingToUpdate(u: UserUpdate)
    ensures Collected(UpdateCandidates(u), 4) == [] <==>
      !TruthyStr(u.name) && !TruthyStr(u.email) && !TruthyStr(u.password) && !TruthyStr(u.role)
  {
    var cand := UpdateCandidates(u);
    CollectedEmpty(cand, 4);
    assert cand(0).present == TruthyStr(u.name);
    assert cand(1).present == TruthyStr(u.email);
    assert cand(2).present == TruthyStr(u.password);
    assert cand(3).present == TruthyStr(u.role);
  }

  /** A password reaches the database only as its digest: the password_hash column is
      written exactly when the password is truthy, with the digest, and no clause
      carries the password as text. */
  lemma PasswordOnlyAsDigest(u: UserUpdate)
    ensures Set("password_hash", Digest(u.password.GetOr(""))) in Collected(UpdateCandidates(u), 4) <==>
      TruthyStr(u.password)
    ensures forall c: Change :: c in Collected(UpdateCandidates(u), 4) && c.column == "password_hash" ==>
      c == Set("password_hash", Digest(u.password.value))
  {
    var cand := UpdateCandidates(u);
    var digest := Set("password_hash", Digest(u.password.GetOr("")));
    CollectedMember(cand, 4, digest);
    assert cand(0).item.column == "name" && cand(1).item.column == "email" && cand(3).item.column == "role";
    forall c: Change | c in Collected(cand, 4) && c.column == "password_hash"
      ensures c == Set("password_hash", Digest(u.password.value))
    {
      CollectedMember(cand, 4, c);
    }
  }

  // ---- POST /users ----

  /** The request body of a creation; `role` is None when the key is absent, so that
      its default applies. */
  datatype UserCreate = UserCreate(tenantId: int, name: string, email: string, password: string, role: Option<Option<string>>)

  const DefaultRole := "staff"
  const DuplicateUser := "User with this email already exists for this tenant"
  const UnknownTenant := "Tenant not found"

  /** The parameters of the INSERT: the password always as its digest, the role
      "staff" unless one was sent. */
  function UserParams(u: UserCreate): (ps: seq<SqlValue>)
    ensures |ps| == 5 && ps[0] == Int(u.tenantId) && ps[3] == Digest(u.password)
    ensures ps[1] == Text(u.name) && ps[2] == Text(u.email)
    ensures u.role.None? ==> ps[4] == Text(DefaultRole)
    ensures u.role.Some? ==> ps[4] == TextOrNull(u.role.value)
  {
    [Int(u.tenantId), Text(u.name), Text(u.email), Digest(u.password), TextOrNull(WithDefault(u.role, DefaultRole))]
  }

  /** The reply of the creation: the unique test comes before the foreign-key test,
      and only these two are answered with 400. */
  function CreateUser(ran: Inserted): (r: Result<int>)
    ensures r.Success? <==> ran.Inserted?
    ensures ran.Rejected? && UniqueViolation(ran.message) ==> r == Failure(HttpError(400, DuplicateUser))
    ensures ran.Rejected? && !UniqueViolation(ran.message) && ForeignKeyViolation(ran.message) ==>
      r == Failure(HttpError(400, UnknownTenant))
    ensures ran.Rejected? && !UniqueViolation(ran.message) && !ForeignKeyViolation(ran.message) ==>
      r == Failure(HttpError(500, "Failed to create user: " + ran.message))
  {
    Created(ran, Some(DuplicateUser), Some(UnknownTenant), "Failed to create user: ")
  }
}
