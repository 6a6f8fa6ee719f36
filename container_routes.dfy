/** The routes of a job's containers (`/containers`): the list restricted by job, the
    update builder, and the creation with its default type and error mapping. */
module ContainerRoutes {
  import opened Common
  import opened Strings
  import opened Sql

  // ---- GET /containers ----

  /** The list query: restricted to one job exactly when the job id is truthy. */
  method ListContainers(jobId: Option<int>) returns (st: Statement)
    ensures TruthyInt(jobId) ==> st == LookupStatement("containers c", "c.job_id", Int(jobId.value))
    ensures !TruthyInt(jobId) ==> st == ScanStatement("containers c")
    ensures WellFormed(st)
    ensures |st.params| == (if TruthyInt(jobId) then 1 else 0)
  {
    if TruthyInt(jobId) {
      st := LookupStatement("containers c", "c.job_id", Int(jobId.value));
      LookupWellFormed("containers c", "c.job_id", Int(jobId.value));
    } else {
      st := ScanStatement("containers c");
      ScanWellFormed("containers c");
    }
  }

  // ---- PUT /containers/{container_id} ----

  /** The request body of an update. */
  datatype ContainerUpdate = ContainerUpdate(
    containerNo: Option<string>,
    size: Option<string>,
    kind: Option<string>,
    sealNo: Option<string>,
    status: Option<string>)

  function UpdateCandidate(c: ContainerUpdate, k: nat): Candidate<Change>
  {
    match k
    case 0 => Candidate(TruthyStr(c.containerNo), Set("container_no", TextOrNull(c.containerNo)))
    case 1 => Candidate(c.size.Some?, Set("size", TextOrNull(c.size)))
    case 2 => Candidate(c.kind.Some?, Set("type", TextOrNull(c.kind)))
    case 3 => Candidate(c.sealNo.Some?, Set("seal_no", TextOrNull(c.sealNo)))
    case _ => Candidate(TruthyStr(c.status), Set("status", TextOrNull(c.status)))
  }

  /** The update's fields in the order the route tests them. */
  function UpdateCandidates(c: ContainerUpdate): nat -> Candidate<Change>
  {
    (k: nat) => UpdateCandidate(c, k)
  }

  /** The SET list of an update, built field by field. */
  method ContainerChanges(c: ContainerUpdate) returns (updates: seq<Change>)
    ensures updates == Collected(UpdateCandidates(c), 5)
  {
    updates := [];
    if TruthyStr(c.containerNo) { updates := updates + [Set("container_no", Text(c.containerNo.value))]; }
    assert updates == Collected(UpdateCandidates(c), 1);
    if c.size.Some? { updates := updates + [Set("size", Text(c.size.value))]; }
    assert updates == Collected(UpdateCandidates(c), 2);
    if c.kind.Some? { updates := updates + [Set("type", Text(c.kind.value))]; }
    assert updates == Collected(UpdateCandidates(c), 3);
    if c.sealNo.Some? { updates := updates + [Set("seal_no", Text(c.sealNo.value))]; }
    assert updates == Collected(UpdateCandidates(c), 4);
    if TruthyStr(c.status) { updates := updates + [Set("status", Text(c.status.value))]; }
  }

  /** The update: 400 before any SQL when nothing is written, otherwise one
      placeholder per parameter with the container id bound last. */
  method UpdateContainer(containerId: int, c: ContainerUpdate, ran: Outcome<()>) returns (sent: Option<Statement>, r: Result<string>)
    ensures var updates := Collected(UpdateCandidates(c), 5);
      if updates == [] then sent == None && r == Failure(NoFieldsToUpdate)
      else sent == Some(UpdateStatement("containers", updates, Int(containerId))) &&
           r == Reply(ran, "Container " + IntToString(containerId) + " not found", "Failed to update container: ", "Container updated")
    ensures sent.Some? ==> WellFormed(sent.value) && sent.value.params[|sent.value.params| - 1] == Int(containerId)
  {
    var updates := ContainerChanges(c);
    ColumnsSafe(c);
    PlainName("containers");
    sent, r := SendUpdate("containers", updates, Int(containerId),
      Reply(ran, "Container " + IntToString(containerId) + " not found", "Failed to update container: ", "Container updated"));
  }

  lemma ColumnsSafe(c: ContainerUpdate)
    ensures SafeColumns(Collected(UpdateCandidates(c), 5))
  {
    PlainName("container_no");
    PlainName("size");
    PlainName("type");
    PlainName("seal_no");
    PlainName("status");
    CollectedSafe(UpdateCandidates(c), 5);
  }

  /** The 400 answer comes exactly when container number and status are falsy and
      size, type and seal number are None. */
  lemma NothingToUpdate(c: ContainerUpdate)
    ensures Collected(UpdateCandidates(c), 5) == [] <==>
      !TruthyStr(c.containerNo) && c.size.None? && c.kind.None? && c.sealNo.None? && !TruthyStr(c.status)
  {
    var cand := UpdateCandidates(c);
    CollectedEmpty(cand, 5);
    assert cand(0).present == TruthyStr(c.containerNo);
    assert cand(1).present == c.size.Some?;
    assert cand(2).present == c.kind.Some?;
    assert cand(3).present == c.sealNo.Some?;
    assert cand(4).present == TruthyStr(c.status);
  }

  /** An empty seal number clears the column, while an empty status is not written. */
  lemma EmptyStringsDiffer(c: ContainerUpdate, v: SqlValue)
    requires c.sealNo == Some("") && c.status == Some("")
    ensures Set("seal_no", Text("")) in Collected(UpdateCandidates(c), 5)
    ensures Set("status", v) !in Collected(UpdateCandidates(c), 5)
  {
    var cand := UpdateCandidates(c);
    assert cand(3) == Candidate(true, Set("seal_no", Text("")));
    CollectedMember(cand, 5, Set("seal_no", Text("")));
    CollectedMember(cand, 5, Set("status", v));
    forall k | 0 <= k < 4
      ensures cand(k).item.column != "status"
    {
    }
    assert !cand(4).present;
  }

  // ---- POST /containers ----

  /** The request body of a creation; `kind` is None when the `type` key is absent,
      so that its default applies. */
  datatype ContainerCreate = ContainerCreate(jobId: int, containerNo: string, size: Option<string>,
                                             kind: Option<Option<string>>, sealNo: Option<string>)

  const DefaultKind := "dry"
  const UnknownJob := "Job not found"

  /** The parameters of the INSERT, in column order; type "dry" unless one was sent. */
  function ContainerParams(c: ContainerCreate): (ps: seq<SqlValue>)
    ensures |ps| == 5 && ps[0] == Int(c.jobId) && ps[1] == Text(c.containerNo)
    ensures ps[2] == TextOrNull(c.size) && ps[4] == TextOrNull(c.sealNo)
    ensures c.kind.None? ==> ps[3] == Text(DefaultKind)
    ensures c.kind.Some? ==> ps[3] == TextOrNull(c.kind.value)
  {
    [Int(c.jobId), Text(c.containerNo), TextOrNull(c.size), TextOrNull(WithDefault(c.kind, DefaultKind)), TextOrNull(c.sealNo)]
  }

  /** The reply of the creation: only a foreign-key violation (an unknown job) is
      answered with 400. */
  function CreateContainer(ran: Inserted): (r: Result<int>)
    ensures r.Success? <==> ran.Inserted?
    ensures ran.Rejected? && ForeignKeyViolation(ran.message) ==> r == Failure(HttpError(400, UnknownJob))
    ensures ran.Rejected? && !ForeignKeyViolation(ran.message) ==>
      r == Failure(HttpError(500, "Failed to create container: " + ran.message))
  {
    Created(ran, None, Some(UnknownJob), "Failed to create container: ")
  }
}
