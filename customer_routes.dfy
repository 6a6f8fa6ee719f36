/** The routes of a tenant's customers (`/customers`): the list restricted by tenant,
    the update builder and the creation's error mapping. */
module CustomerRoutes {
  import opened Common
  import opened Strings
  import opened Sql

  // ---- GET /customers ----

  function ListCandidate(tenantId: Option<int>, k: nat): Candidate<Condition>
  {
    Candidate(TruthyInt(tenantId), Condition("tenant_id", IntOrNull(tenantId)))
  }

  /** The one filter of the list: the tenant, when truthy. */
  function ListCandidates(tenantId: Option<int>): nat -> Candidate<Condition>
  {
    (k: nat) => ListCandidate(tenantId, k)
  }

  /** The list query: restricted to the tenant when its id is truthy, ordered by
      company name either way. */
  method ListCustomers(tenantId: Option<int>) returns (st: Statement)
    ensures st == SelectStatement("customers", Collected(ListCandidates(tenantId), 1), "company_name ASC", None)
    ensures WellFormed(st)
  {
    var conds: seq<Condition> := [];
    if TruthyInt(tenantId) {
      conds := [Condition("tenant_id", Int(tenantId.value))];
    }
    assert conds == Collected(ListCandidates(tenantId), 1);
    st := SelectStatement("customers", conds, "company_name ASC", None);
    ListWellFormed(tenantId);
  }

  lemma ListWellFormed(tenantId: Option<int>)
    ensures WellFormed(SelectStatement("customers", Collected(ListCandidates(tenantId), 1), "company_name ASC", None))
  {
    PlainName("tenant_id");
    PlainName("company_name ASC");
    FilterWellFormed("customers", ListCandidates(tenantId), 1, "company_name ASC", None);
  }

  /** The tenant is the only bound parameter, present exactly when its id is truthy. */
  lemma ListParams(tenantId: Option<int>)
    ensures SelectStatement("customers", Collected(ListCandidates(tenantId), 1), "company_name ASC", None).params ==
      (if TruthyInt(tenantId) then [Int(tenantId.value)] else [])
  {
    var conds := Collected(ListCandidates(tenantId), 1);
    assert conds == (if TruthyInt(tenantId) then [Condition("tenant_id", Int(tenantId.value))] else []);
  }

  // ---- PUT /customers/{customer_id} ----

  /** The request body of an update. */
  datatype CustomerUpdate = CustomerUpdate(
    companyName: Option<string>,
    contactPerson: Option<string>,
    phone: Option<string>,
    email: Option<string>,
    gstNo: Option<string>)

  function UpdateCandidate(c: CustomerUpdate, k: nat): Candidate<Change>
  {
    match k
    case 0 => Candidate(TruthyStr(c.companyName), Set("company_name", TextOrNull(c.companyName)))
    case 1 => Candidate(c.contactPerson.Some?, Set("contact_person", TextOrNull(c.contactPerson)))
    case 2 => Candidate(c.phone.Some?, Set("phone", TextOrNull(c.phone)))
    case 3 => Candidate(c.email.Some?, Set("email", TextOrNull(c.email)))
    case _ => Candidate(c.gstNo.Some?, Set("gst_no", TextOrNull(c.gstNo)))
  }

  /** The update's fields in the order the route tests them. */
  function UpdateCandidates(c: CustomerUpdate): nat -> Candidate<Change>
  {
    (k: nat) => UpdateCandidate(c, k)
  }

  /** The SET list of an update, built field by field. */
  method CustomerChanges(c: CustomerUpdate) returns (updates: seq<Change>)
    ensures updates == Collected(UpdateCandidates(c), 5)
  {
    updates := [];
    if TruthyStr(c.companyName) { updates := updates + [Set("company_name", Text(c.companyName.value))]; }
    assert updates == Collected(UpdateCandidates(c), 1);
    if c.contactPerson.Some? { updates := updates + [Set("contact_person", Text(c.contactPerson.value))]; }
    assert updates == Collected(UpdateCandidates(c), 2);
    if c.phone.Some? { updates := updates + [Set("phone", Text(c.phone.value))]; }
    assert updates == Collected(UpdateCandidates(c), 3);
    if c.email.Some? { updates := updates + [Set("email", Text(c.email.value))]; }
    assert updates == Collected(UpdateCandidates(c), 4);
    if c.gstNo.Some? { updates := updates + [Set("gst_no", Text(c.gstNo.value))]; }
  }

  /** The update: 400 before any SQL when nothing is written, otherwise one
      placeholder per parameter with the customer id bound last; the reply is the
      returned row. */
  method UpdateCustomer<Row>(customerId: int, c: CustomerUpdate, ran: Outcome<Row>) returns (sent: Option<Statement>, r: Result<Row>)
    ensures var updates := Collected(UpdateCandidates(c), 5);
      if updates == [] then sent == None && r == Failure(NoFieldsToUpdate)
      else sent == Some(UpdateStatement("customers", updates, Int(customerId))) &&
           r == Echo(ran, "Customer " + IntToString(customerId) + " not found", "Failed to update customer: ")
    ensures sent.Some? ==> WellFormed(sent.value) && sent.value.params[|sent.value.params| - 1] == Int(customerId)
  {
    var updates := CustomerChanges(c);
    ColumnsSafe(c);
    PlainName("customers");
    sent, r := SendUpdate("customers", updates, Int(customerId),
      Echo(ran, "Customer " + IntToString(customerId) + " not found", "Failed to update customer: "));
  }

  lemma ColumnsSafe(c: CustomerUpdate)
    ensures SafeColumns(Collected(UpdateCandidates(c), 5))
  {
    PlainName("company_name");
    PlainName("contact_person");
    PlainName("phone");
    PlainName("email");
    PlainName("gst_no");
    CollectedSafe(UpdateCandidates(c), 5);
  }

  /** The 400 answer comes exactly when the company name is falsy and the four
      contact fields are None. */
  lemma NothingToUpdate(c: CustomerUpdate)
    ensures Collected(UpdateCandidates(c), 5) == [] <==>
      !TruthyStr(c.companyName) && c.contactPerson.None? && c.phone.None? && c.email.None? && c.gstNo.None?
  {
    var cand := UpdateCandidates(c);
    CollectedEmpty(cand, 5);
    assert cand(0).present == TruthyStr(c.companyName);
    assert cand(1).present == c.contactPerson.Some?;
    assert cand(2).present == c.phone.Some?;
    assert cand(3).present == c.email.Some?;
    assert cand(4).present == c.gstNo.Some?;
  }

  /** An empty GST number clears the column, while an empty company name is not
      written. */
  lemma EmptyStringsDiffer(c: CustomerUpdate, v: SqlValue)
    requires c.companyName == Some("") && c.gstNo == Some("")
    ensures Set("gst_no", Text("")) in Collected(UpdateCandidates(c), 5)
    ensures Set("company_name", v) !in Collected(UpdateCandidates(c), 5)
  {
    var cand := UpdateCandidates(c);
    assert cand(4) == Candidate(true, Set("gst_no", Text("")));
    CollectedMember(cand, 5, Set("gst_no", Text("")));
    CollectedMember(cand, 5, Set("company_name", v));
    forall k | 1 <= k < 5
      ensures cand(k).item.column != "company_name"
    {
    }
    assert !cand(0).present;
  }

  // ---- POST /customers ----

  const UnknownTenant := "Tenant not found"

  /** The reply of the creation: only a foreign-key violation (an unknown tenant) is
      answered with 400; a duplicate falls through to 500. */
  function CreateCustomer(ran: Inserted): (r: Result<int>)
    ensures r.Success? <==> ran.Inserted?
    ensures ran.Rejected? && ForeignKeyViolation(ran.message) ==> r == Failure(HttpError(400, UnknownTenant))
    ensures ran.Rejected? && !ForeignKeyViolation(ran.message) ==>
      r == Failure(HttpError(500, "Failed to create customer: " + ran.message))
  {
    Created(ran, None, Some(UnknownTenant), "Failed to create customer: ")
  }
}
