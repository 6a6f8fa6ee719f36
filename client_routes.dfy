/** The routes of importer clients (`/clients`): the update builder with its own
    duplicate-name handling, the usage guard of the delete, and the creation's error
    mapping. */
module ClientRoutes {
  import opened Common
  import opened Strings
  import opened Sql

  const DuplicateClient := "Client with this name already exists"

  // ---- POST /clients ----

  /** The reply of the creation: a unique violation (a duplicate name) is answered
      with 400, anything else with 500. */
  function CreateClient(ran: Inserted): (r: Result<int>)
    ensures r.Success? <==> ran.Inserted?
    ensures ran.Rejected? && UniqueViolation(ran.message) ==> r == Failure(HttpError(400, DuplicateClient))
    ensures ran.Rejected? && !UniqueViolation(ran.message) ==>
      r == Failure(HttpError(500, "Failed to create client: " + ran.message))
  {
    Created(ran, Some(DuplicateClient), None, "Failed to create client: ")
  }

  // ---- PUT /clients/{client_id} ----

  /** The request body of an update. */
  datatype ClientUpdate = ClientUpdate(
    name: Option<string>,
    address: Option<string>,
    contactPerson: Option<string>,
    email: Option<string>,
    phone: Option<string>)

  function UpdateCandidate(c: ClientUpdate, k: nat): Candidate<Change>
  {
    match k
    case 0 => Candidate(c.name.Some?, Set("name", TextOrNull(c.name)))
    case 1 => Candidate(c.address.Some?, Set("address", TextOrNull(c.address)))
    case 2 => Candidate(c.contactPerson.Some?, Set("contact_person", TextOrNull(c.contactPerson)))
    case 3 => Candidate(c.email.Some?, Set("email", TextOrNull(c.email)))
    case _ => Candidate(c.phone.Some?, Set("phone", TextOrNull(c.phone)))
  }

  /** The update's fields in the order the route tests them, each when not None. */
  function UpdateCandidates(c: ClientUpdate): nat -> Candidate<Change>
  {
    (k: nat) => UpdateCandidate(c, k)
  }

  /** The SET list of an update, built field by field. */
  method ClientChanges(c: ClientUpdate) returns (updates: seq<Change>)
    ensures updates == Collected(UpdateCandidates(c), 5)
  {
    updates := [];
    if c.name.Some? { updates := updates + [Set("name", Text(c.name.value))]; }
    assert updates == Collected(UpdateCandidates(c), 1);
    if c.address.Some? { updates := updates + [Set("address", Text(c.address.value))]; }
    assert updates == Collected(UpdateCandidates(c), 2);
    if c.contactPerson.Some? { updates := updates + [Set("contact_person", Text(c.contactPerson.value))]; }
    assert updates == Collected(UpdateCandidates(c), 3);
    if c.email.Some? { updates := updates + [Set("email", Text(c.email.value))]; }
    assert updates == Collected(UpdateCandidates(c), 4);
    if c.phone.Some? { updates := updates + [Set("phone", Text(c.phone.value))]; }
  }

  /** The reply of the update once its statement has run: the row; 404 when there is
      none (the 404 passes through the inner handler unchanged); and for an
      exception, 400 on a duplicate name and 500 otherwise. */
  function ClientReply<Row>(clientId: int, ran: Outcome<Row>): (r: Result<Row>)
    ensures r.Success? <==> ran.Row?
    ensures r.Success? ==> r.value == ran.value
    ensures ran.NoRow? ==> r.error == HttpError(404, "Client " + IntToString(clientId) + " not found")
    ensures ran.Raised? && UniqueViolation(ran.message) ==> r.error == HttpError(400, DuplicateClient)
    ensures ran.Raised? && !UniqueViolation(ran.message) ==>
      r.error == HttpError(500, "Failed to update client: " + ran.message)
  {
    match ran
    case Row(row) => Success(row)
    case NoRow => Failure(HttpError(404, "Client " + IntToString(clientId) + " not found"))
    case Raised(e) => Failure(CreateFailure(e, Some(DuplicateClient), None, "Failed to update client: "))
  }

  /** The update: 400 before any SQL when every field is None, otherwise one
      placeholder per parameter with the client id bound last. */
  method UpdateClient<Row>(clientId: int, c: ClientUpdate, ran: Outcome<Row>) returns (sent: Option<Statement>, r: Result<Row>)
    ensures var updates := Collected(UpdateCandidates(c), 5);
      if updates == [] then sent == None && r == Failure(NoFieldsToUpdate)
      else sent == Some(UpdateStatement("clients", updates, Int(clientId))) && r == ClientReply(clientId, ran)
    ensures sent.Some? ==> WellFormed(sent.value) && sent.value.params[|sent.value.params| - 1] == Int(clientId)
  {
    var updates := ClientChanges(c);
    ColumnsSafe(c);
    PlainName("clients");
    sent, r := SendUpdate("clients", updates, Int(clientId), ClientReply(clientId, ran));
  }

  lemma ColumnsSafe(c: ClientUpdate)
    ensures SafeColumns(Collected(UpdateCandidates(c), 5))
  {
    PlainName("name");
    PlainName("address");
    PlainName("contact_person");
    PlainName("email");
    PlainName("phone");
    CollectedSafe(UpdateCandidates(c), 5);
  }

  /** The 400 answer comes exactly when every field is None; an empty string is
      written. */
  lemma NothingToUpdate(c: ClientUpdate)
    ensures Collected(UpdateCandidates(c), 5) == [] <==>
      c.name.None? && c.address.None? && c.contactPerson.None? && c.email.None? && c.phone.None?
  {
    var cand := UpdateCandidates(c);
    CollectedEmpty(cand, 5);
    assert cand(0).present == c.name.Some?;
    assert cand(1).present == c.address.Some?;
    assert cand(2).present == c.contactPerson.Some?;
    assert cand(3).present == c.email.Some?;
    assert cand(4).present == c.phone.Some?;
  }

  /** Every sent field is written once, in the route's order: the SET list has one
      clause per field that is not None. */
  lemma OneClausePerField(c: ClientUpdate)
    ensures |Collected(UpdateCandidates(c), 5)| ==
      (if c.name.Some? then 1 else 0) + (if c.address.Some? then 1 else 0) +
      (if c.contactPerson.Some? then 1 else 0) + (if c.email.Some? then 1 else 0) +
      (if c.phone.Some? then 1 else 0)
  {
    var cand := UpdateCandidates(c);
    assert |Collected(cand, 1)| == (if c.name.Some? then 1 else 0);
    assert |Collected(cand, 2)| == |Collected(cand, 1)| + (if c.address.Some? then 1 else 0);
    assert |Collected(cand, 3)| == |Collected(cand, 2)| + (if c.contactPerson.Some? then 1 else 0);
    assert |Collected(cand, 4)| == |Collected(cand, 3)| + (if c.email.Some? then 1 else 0);
  }

  // ---- DELETE /clients/{client_id} ----

  /** What the usage count of the legacy import records gave: the count, or the
      exception of its query. */
  datatype Usage = Usage(count: int) | UsageRaised(message: string)

  /** The delete: a client still referenced by a legacy job is refused with 400 before
      any DELETE is sent; otherwise the DELETE runs and its outcome gives the reply. */
  method DeleteClient(clientId: int, usage: Usage, ran: Outcome<()>) returns (deleted: Option<Statement>, r: Result<string>)
    ensures deleted.Some? <==> usage.Usage? && usage.count <= 0
    ensures usage.UsageRaised? ==> r == Failure(HttpError(500, "Failed to delete client: " + usage.message))
    ensures usage.Usage? && usage.count > 0 ==>
      r == Failure(HttpError(400, "Cannot delete client. Used in " + IntToString(usage.count) + " jobs."))
    ensures deleted.Some? ==> deleted.value == DeleteStatement("clients", Int(clientId))
    ensures deleted.Some? ==> WellFormed(deleted.value)
    ensures deleted.Some? ==>
      r == Reply(ran, "Client " + IntToString(clientId) + " not found", "Failed to delete client: ", "Client deleted successfully")
  {
    match usage
    case UsageRaised(e) =>
      return None, Failure(HttpError(500, "Failed to delete client: " + e));
    case Usage(count) =>
      if count > 0 {
        return None, Failure(HttpError(400, "Cannot delete client. Used in " + IntToString(count) + " jobs."));
      }
      DeleteWellFormed("clients", Int(clientId));
      deleted := Some(DeleteStatement("clients", Int(clientId)));
      r := Reply(ran, "Client " + IntToString(clientId) + " not found", "Failed to delete client: ", "Client deleted successfully");
  }
}
