/** The routes of tenants (`/tenants`), the broker companies of the SaaS: the update
    builder and the creation of a tenant together with its admin user. */
module TenantRoutes {
  import opened Common
  import opened Strings
  import opened Sql

  // ---- PUT /tenants/{tenant_id} ----

  /** The request body of an update. */
  datatype TenantUpdate = TenantUpdate(
    companyName: Option<string>,
    contactName: Option<string>,
    email: Option<string>,
    phone: Option<string>,
    plan: Option<string>,
    status: Option<string>)

  function UpdateCandidate(t: TenantUpdate, k: nat): Candidate<Change>
  {
    match k
    case 0 => Candidate(TruthyStr(t.companyName), Set("company_name", TextOrNull(t.companyName)))
    case 1 => Candidate(t.contactName.Some?, Set("contact_name", TextOrNull(t.contactName)))
    case 2 => Candidate(TruthyStr(t.email), Set("email", TextOrNull(t.email)))
    case 3 => Candidate(t.phone.Some?, Set("phone", TextOrNull(t.phone)))
    case 4 => Candidate(TruthyStr(t.plan), Set("plan", TextOrNull(t.plan)))
    case _ => Candidate(TruthyStr(t.status), Set("status", TextOrNull(t.status)))
  }

  /** The update's fields in the order the route tests them. */
  function UpdateCandidates(t: TenantUpdate): nat -> Candidate<Change>
  {
    (k: nat) => UpdateCandidate(t, k)
  }

  /** The SET list of an update, built field by field. */
  method TenantChanges(t: TenantUpdate) returns (updates: seq<Change>)
    ensures updates == Collected(UpdateCandidates(t), 6)
  {
    updates := [];
    if TruthyStr(t.companyName) { updates := updates + [Set("company_name", Text(t.companyName.value))]; }
    assert updates == Collected(UpdateCandidates(t), 1);
    if t.contactName.Some? { updates := updates + [Set("contact_name", Text(t.contactName.value))]; }
    assert updates == Collected(UpdateCandidates(t), 2);
    if TruthyStr(t.email) { updates := updates + [Set("email", Text(t.email.value))]; }
    assert updates == Collected(UpdateCandidates(t), 3);
    if t.phone.Some? { updates := updates + [Set("phone", Text(t.phone.value))]; }
    assert updates == Collected(UpdateCandidates(t), 4);
    if TruthyStr(t.plan) { updates := updates + [Set("plan", Text(t.plan.value))]; }
    assert updates == Collected(UpdateCandidates(t), 5);
    if TruthyStr(t.status) { updates := updates + [Set("status", Text(t.status.value))]; }
  }

  /** The update: 400 before any SQL when nothing is written, otherwise one
      placeholder per parameter with the tenant id bound last; the reply is the
      returned row. */
  method UpdateTenant<Row>(tenantId: int, t: TenantUpdate, ran: Outcome<Row>) returns (sent: Option<Statement>, r: Result<Row>)
    ensures var updates := Collected(UpdateCandidates(t), 6);
      if updates == [] then sent == None && r == Failure(NoFieldsToUpdate)
      else sent == Some(UpdateStatement("tenants", updates, Int(tenantId))) &&
           r == Echo(ran, "Tenant " + IntToString(tenantId) + " not found", "Failed to update tenant: ")
    ensures sent.Some? ==> WellFormed(sent.value) && sent.value.params[|sent.value.params| - 1] == Int(tenantId)
  {
    var updates := TenantChanges(t);
    ColumnsSafe(t);
    PlainName("tenants");
    sent, r := SendUpdate("tenants", updates, Int(tenantId),
      Echo(ran, "Tenant " + IntToString(tenantId) + " not found", "Failed to update tenant: "));
  }

  lemma ColumnsSafe(t: TenantUpdate)
    ensures SafeColumns(Collected(UpdateCandidates(t), 6))
  {
    PlainName("company_name");
    PlainName("contact_name");
    PlainName("email");
    PlainName("phone");
    PlainName("plan");
    PlainName("status");
    CollectedSafe(UpdateCandidates(t), 6);
  }

  /** The 400 answer comes exactly when company name, email, plan and status are
      falsy and contact name and phone are None. */
  lemma NothingToUpdate(t: TenantUpdate)
    ensures Collected(UpdateCandidates(t), 6) == [] <==>
      !TruthyStr(t.companyName) && t.contactName.None? && !TruthyStr(t.email) &&
      t.phone.None? && !TruthyStr(t.plan) && !TruthyStr(t.status)
  {
    var cand := UpdateCandidates(t);
    CollectedEmpty(cand, 6);
    assert cand(0).present == TruthyStr(t.companyName);
    assert cand(1).present == t.contactName.Some?;
    assert cand(2).present == TruthyStr(t.email);
    assert cand(3).present == t.phone.Some?;
    assert cand(4).present == TruthyStr(t.plan);
    assert cand(5).present == TruthyStr(t.status);
  }

  /** The two tests differ on the empty string: an empty contact name clears the
      column, an empty company name is not written at all. */
  lemma EmptyStringsDiffer(t: TenantUpdate, v: SqlValue)
    requires t.companyName == Some("") && t.contactName == Some("")
    ensures Set("contact_name", Text("")) in Collected(UpdateCandidates(t), 6)
    ensures Set("company_name", v) !in Collected(UpdateCandidates(t), 6)
  {
    var cand := UpdateCandidates(t);
    assert cand(1) == Candidate(true, Set("contact_name", Text("")));
    CollectedMember(cand, 6, Set("contact_name", Text("")));
    CollectedMember(cand, 6, Set("company_name", v));
    forall k | 1 <= k < 6
      ensures cand(k).item.column != "company_name"
    {
    }
    assert !cand(0).present;
  }

  // ---- POST /tenants ----

  /** The request body of a creation; `plan` is None when the key is absent, so
      that its default applies. */
  datatype TenantCreate = TenantCreate(
    companyName: string,
    contactName: Option<string>,
    email: string,
    phone: Option<string>,
    password: Option<string>,
    plan: Option<Option<string>>)

  const DefaultPlan := "basic"
  const DuplicateTenant := "Tenant with this email already exists"

  /** The stored password: the SHA-256 digest of a truthy password, nothing otherwise. */
  function PasswordHash(password: Option<string>): (h: Option<SqlValue>)
    ensures h.Some? <==> TruthyStr(password)
    ensures h.Some? ==> h.value == Digest(password.value)
  {
    if TruthyStr(password) then Some(Digest(password.value)) else None
  }

  /** The parameters of the tenant INSERT, in column order. */
  function TenantParams(t: TenantCreate): seq<SqlValue>
  {
    [Text(t.companyName), TextOrNull(t.contactName), Text(t.email), TextOrNull(t.phone),
     TextOrNull(WithDefault(t.plan, DefaultPlan)), PasswordHash(t.password).GetOr(Null)]
  }

  /** `contact_name or company_name`. */
  function AdminName(t: TenantCreate): (name: string)
    ensures TruthyStr(t.contactName) ==> name == t.contactName.value
    ensures !TruthyStr(t.contactName) ==> name == t.companyName
  {
    OrElse(t.contactName, Some(t.companyName)).value
  }

  /** The parameters of the admin user's INSERT. */
  function AdminParams(tenantId: int, t: TenantCreate, hash: SqlValue): seq<SqlValue>
  {
    [Int(tenantId), Text(AdminName(t)), Text(t.email), hash, Text("admin")]
  }

  /** The creation: the tenant row first; when a password hash was computed, an admin
      user for the new tenant with the same email and hash; commit only when every
      insert went through, and the error mapping of the route otherwise. `adminRaised`
      is the exception of the admin insert, if it raised. */
  method CreateTenant(t: TenantCreate, tenantRan: Inserted, adminRaised: Option<string>)
    returns (executed: seq<seq<SqlValue>>, committed: bool, r: Result<int>)
    ensures 1 <= |executed| <= 2 && executed[0] == TenantParams(t)
    ensures |executed| == 2 <==> tenantRan.Inserted? && TruthyStr(t.password)
    ensures |executed| == 2 ==> executed[1] == AdminParams(tenantRan.id, t, Digest(t.password.value))
    ensures committed <==> r.Success?
    ensures tenantRan.Rejected? ==>
      r == Failure(CreateFailure(tenantRan.message, Some(DuplicateTenant), None, "Failed to create tenant: "))
    ensures |executed| == 2 && adminRaised.Some? ==>
      r == Failure(CreateFailure(adminRaised.value, Some(DuplicateTenant), None, "Failed to create tenant: "))
    ensures tenantRan.Inserted? && (|executed| == 1 || adminRaised.None?) ==> r == Success(tenantRan.id)
  {
    var passwordHash: Option<SqlValue> := None;
    if TruthyStr(t.password) {
      passwordHash := Some(Digest(t.password.value));
    }
    executed := [[Text(t.companyName), TextOrNull(t.contactName), Text(t.email), TextOrNull(t.phone),
                  TextOrNull(WithDefault(t.plan, DefaultPlan)), passwordHash.GetOr(Null)]];
    committed := false;
    match tenantRan
    case Rejected(e) =>
      r := Failure(CreateFailure(e, Some(DuplicateTenant), None, "Failed to create tenant: "));
    case Inserted(tenantId) =>
      if passwordHash.Some? {
        executed := executed + [[Int(tenantId), Text(AdminName(t)), Text(t.email), passwordHash.value, Text("admin")]];
        if adminRaised.Some? {
          return executed, false, Failure(CreateFailure(adminRaised.value, Some(DuplicateTenant), None, "Failed to create tenant: "));
        }
      }
      committed := true;
      r := Success(tenantId);
  }

  /** An admin user is created exactly when a truthy password is sent, named after the
      contact when there is one and after the company otherwise, with the tenant's email
      and role "admin". */
  lemma AdminUserShape(tenantId: int, t: TenantCreate)
    requires TruthyStr(t.password)
    ensures var ps := AdminParams(tenantId, t, PasswordHash(t.password).value);
      ps[0] == Int(tenantId) && ps[2] == Text(t.email) &&
      ps[3] == Digest(t.password.value) && ps[4] == Text("admin") &&
      ps[1] == Text(if TruthyStr(t.contactName) then t.contactName.value else t.companyName)
  {
  }

  /** A body without a plan stores plan "basic"; an empty password stores no hash. */
  lemma CreationDefaults(t: TenantCreate)
    ensures t.plan.None? ==> TenantParams(t)[4] == Text(DefaultPlan)
    ensures !TruthyStr(t.password) ==> TenantParams(t)[5] == Null
  {
  }
}
