/** The routes of the multi-tenant jobs table (`/new-jobs`): the filter the list
    query grows and the SET list the update builds, field by field. */
module NewJobRoutes {
  import opened Common
  import opened Strings
  import opened Sql

  // ---- GET /new-jobs ----

  /** The list filters in the order the route tests them: tenant, then status,
      each only when truthy. */
  function ListCandidate(tenantId: Option<int>, status: Option<string>, k: nat): Candidate<Condition>
  {
    if k == 0 then Candidate(TruthyInt(tenantId), Condition("j.tenant_id", IntOrNull(tenantId)))
    else Candidate(TruthyStr(status), Condition("j.status", TextOrNull(status)))
  }

  function ListCandidates(tenantId: Option<int>, status: Option<string>): nat -> Candidate<Condition>
  {
    (k: nat) => ListCandidate(tenantId, status, k)
  }

  /** The list query: a condition per truthy filter, newest job first. */
  method ListNewJobs(tenantId: Option<int>, status: Option<string>) returns (st: Statement)
    ensures st == SelectStatement("jobs j", Collected(ListCandidates(tenantId, status), 2), "j.created_at DESC", None)
    ensures WellFormed(st)
  {
    var conds: seq<Condition> := [];
    if TruthyInt(tenantId) {
      conds := conds + [Condition("j.tenant_id", Int(tenantId.value))];
    }
    assert conds == Collected(ListCandidates(tenantId, status), 1);
    if TruthyStr(status) {
      conds := conds + [Condition("j.status", Text(status.value))];
    }
    assert conds == Collected(ListCandidates(tenantId, status), 2);
    st := SelectStatement("jobs j", conds, "j.created_at DESC", None);
    ListWellFormed(tenantId, status);
  }

  lemma ListWellFormed(tenantId: Option<int>, status: Option<string>)
    ensures WellFormed(SelectStatement("jobs j", Collected(ListCandidates(tenantId, status), 2), "j.created_at DESC", None))
  {
    FilterWellFormed("jobs j", ListCandidates(tenantId, status), 2, "j.created_at DESC", None);
  }

  /** Both filters apply, tenant first, exactly when both are truthy; the parameters
      follow the same order. */
  lemma ListFilterOrder(tenantId: Option<int>, status: Option<string>)
    ensures var conds := Collected(ListCandidates(tenantId, status), 2);
      (TruthyInt(tenantId) && TruthyStr(status) ==>
         ConditionValues(conds) == [Int(tenantId.value), Text(status.value)]) &&
      (!TruthyInt(tenantId) && !TruthyStr(status) ==> conds == []) &&
      (Condition("j.status", TextOrNull(status)) in conds <==> TruthyStr(status))
  {
    var cand := ListCandidates(tenantId, status);
    CollectedMember(cand, 2, Condition("j.status", TextOrNull(status)));
    assert cand(0).item.column == "j.tenant_id" != "j.status";
    assert cand(1).present == TruthyStr(status);
  }

  // ---- PUT /new-jobs/{job_id} ----

  /** The request body of an update; every field is optional. `eta` and `ata` carry
      the outcome of parsing them as `%Y-%m-%d`. */
  datatype NewJobUpdate = NewJobUpdate(
    blNo: Option<string>,
    shippingLine: Option<string>,
    vesselName: Option<string>,
    voyageNo: Option<string>,
    pol: Option<string>,
    pod: Option<string>,
    eta: Option<DateInput>,
    ata: Option<DateInput>,
    status: Option<string>,
    customerId: Option<int>)

  /** A date field takes part only when it was sent and parsed. */
  predicate Parsed(d: Option<DateInput>)
  {
    d.Some? && d.value.parsed.Some?
  }

  function DateValue(d: Option<DateInput>): SqlValue
  {
    if Parsed(d) then Date(d.value.parsed.value) else Null
  }

  /** The update's fields in the order the route tests them, each present when it is
      not None (a date also has to parse). */
  function UpdateCandidate(job: NewJobUpdate, k: nat): Candidate<Change>
  {
    match k
    case 0 => Candidate(job.blNo.Some?, Set("bl_no", TextOrNull(job.blNo)))
    case 1 => Candidate(job.shippingLine.Some?, Set("shipping_line", TextOrNull(job.shippingLine)))
    case 2 => Candidate(job.vesselName.Some?, Set("vessel_name", TextOrNull(job.vesselName)))
    case 3 => Candidate(job.voyageNo.Some?, Set("voyage_no", TextOrNull(job.voyageNo)))
    case 4 => Candidate(job.pol.Some?, Set("pol", TextOrNull(job.pol)))
    case 5 => Candidate(job.pod.Some?, Set("pod", TextOrNull(job.pod)))
    case 6 => Candidate(Parsed(job.eta), Set("eta", DateValue(job.eta)))
    case 7 => Candidate(Parsed(job.ata), Set("ata", DateValue(job.ata)))
    case 8 => Candidate(job.status.Some?, Set("status", TextOrNull(job.status)))
    case _ => Candidate(job.customerId.Some?, Set("customer_id", IntOrNull(job.customerId)))
  }

  function UpdateCandidates(job: NewJobUpdate): nat -> Candidate<Change>
  {
    (k: nat) => UpdateCandidate(job, k)
  }

  const UpdateFieldCount := 10

  /** The first six steps: the shipment's text columns. */
  method ShipmentChanges(job: NewJobUpdate) returns (updates: seq<Change>)
    ensures updates == Collected(UpdateCandidates(job), 6)
  {
    updates := [];
    if job.blNo.Some? { updates := updates + [Set("bl_no", Text(job.blNo.value))]; }
    assert updates == Collected(UpdateCandidates(job), 1);
    if job.shippingLine.Some? { updates := updates + [Set("shipping_line", Text(job.shippingLine.value))]; }
    assert updates == Collected(UpdateCandidates(job), 2);
    if job.vesselName.Some? { updates := updates + [Set("vessel_name", Text(job.vesselName.value))]; }
    assert updates == Collected(UpdateCandidates(job), 3);
    if job.voyageNo.Some? { updates := updates + [Set("voyage_no", Text(job.voyageNo.value))]; }
    assert updates == Collected(UpdateCandidates(job), 4);
    if job.pol.Some? { updates := updates + [Set("pol", Text(job.pol.value))]; }
    assert updates == Collected(UpdateCandidates(job), 5);
    if job.pod.Some? { updates := updates + [Set("pod", Text(job.pod.value))]; }
  }

  /** The update: 400 before any SQL when no field takes part, otherwise
      `UPDATE jobs SET … WHERE id = %s` with the id bound last, answered by the
      returned row. */
  method NewJobChanges(job: NewJobUpdate) returns (updates: seq<Change>)
    ensures updates == Collected(UpdateCandidates(job), UpdateFieldCount)
  {
    updates := ShipmentChanges(job);
    if job.eta.Some? {
      match job.eta.value.parsed
      case Some(etaDate) => updates := updates + [Set("eta", Date(etaDate))];
      case None =>
    }
    assert updates == Collected(UpdateCandidates(job), 7);
    if job.ata.Some? {
      match job.ata.value.parsed
      case Some(ataDate) => updates := updates + [Set("ata", Date(ataDate))];
      case None =>
    }
    assert updates == Collected(UpdateCandidates(job), 8);
    if job.status.Some? { updates := updates + [Set("status", Text(job.status.value))]; }
    assert updates == Collected(UpdateCandidates(job), 9);
    if job.customerId.Some? { updates := updates + [Set("customer_id", Int(job.customerId.value))]; }
  }

  method UpdateNewJob(jobId: int, job: NewJobUpdate, ran: Outcome<()>) returns (sent: Option<Statement>, r: Result<string>)
    ensures var updates := Collected(UpdateCandidates(job), UpdateFieldCount);
      if updates == [] then sent == None && r == Failure(NoFieldsToUpdate)
      else sent == Some(UpdateStatement("jobs", updates, Int(jobId))) &&
           r == Reply(ran, "Job " + IntToString(jobId) + " not found", "Failed to update job: ", "Job updated successfully")
    ensures sent.Some? ==> WellFormed(sent.value) && |sent.value.params| == |Collected(UpdateCandidates(job), UpdateFieldCount)| + 1
    ensures sent.Some? ==> sent.value.params[|sent.value.params| - 1] == Int(jobId)
  {
    var updates := NewJobChanges(job);
    UpdateShape(job);
    PlainName("jobs");
    sent, r := SendUpdate("jobs", updates, Int(jobId),
      Reply(ran, "Job " + IntToString(jobId) + " not found", "Failed to update job: ", "Job updated successfully"));
  }

  /** Every change renders safely and binds exactly one parameter. */
  lemma UpdateShape(job: NewJobUpdate)
    ensures SafeColumns(Collected(UpdateCandidates(job), UpdateFieldCount))
    ensures |Values(Collected(UpdateCandidates(job), UpdateFieldCount))| == |Collected(UpdateCandidates(job), UpdateFieldCount)|
  {
    var cand := UpdateCandidates(job);
    UpdateColumnsSafe(job);
    CollectedSafe(cand, UpdateFieldCount);
    CollectedAll(cand, UpdateFieldCount, (c: Change) => c.Set?);
    var cs := Collected(cand, UpdateFieldCount);
    forall k | 0 <= k < |cs|
      ensures cs[k].Set?
    {
      assert cs[k] in cs;
    }
    ValuesOfSets(cs);
  }

  lemma UpdateColumnsSafe(job: NewJobUpdate)
    ensures forall k :: 0 <= k < UpdateFieldCount ==> NoPercent(UpdateCandidates(job)(k).item.column)
  {
    forall k | 0 <= k < UpdateFieldCount
      ensures NoPercent(UpdateCandidate(job, k).item.column)
    {
      match k
      case 0 => case 1 => case 2 => case 3 => case 4 =>
      case 5 => case 6 => case 7 => case 8 => case _ =>
    }
  }

  /** The request is rejected with 400 exactly when no field is sent, apart from
      dates that do not parse. */
  lemma NothingToUpdate(job: NewJobUpdate)
    ensures Collected(UpdateCandidates(job), UpdateFieldCount) == [] <==>
      job.blNo.None? && job.shippingLine.None? && job.vesselName.None? && job.voyageNo.None? &&
      job.pol.None? && job.pod.None? && !Parsed(job.eta) && !Parsed(job.ata) &&
      job.status.None? && job.customerId.None?
  {
    var cand := UpdateCandidates(job);
    CollectedEmpty(cand, UpdateFieldCount);
    assert cand(0).present == job.blNo.Some?;
    assert cand(1).present == job.shippingLine.Some?;
    assert cand(2).present == job.vesselName.Some?;
    assert cand(3).present == job.voyageNo.Some?;
    assert cand(4).present == job.pol.Some?;
    assert cand(5).present == job.pod.Some?;
    assert cand(6).present == Parsed(job.eta);
    assert cand(7).present == Parsed(job.ata);
    assert cand(8).present == job.status.Some?;
    assert cand(9).present == job.customerId.Some?;
  }

  /** A request holding only an eta that does not parse sends nothing and is refused. */
  lemma OnlyBadEtaIsRefused(raw: string)
    ensures Collected(UpdateCandidates(NewJobUpdate(None, None, None, None, None, None,
      Some(DateInput(raw, None)), None, None, None)), UpdateFieldCount) == []
  {
    NothingToUpdate(NewJobUpdate(None, None, None, None, None, None, Some(DateInput(raw, None)), None, None, None));
  }

  /** Any status string is written as sent, with no list of allowed values; an empty
      string too, since the test is `is not None`. */
  lemma AnyStatusIsWritten(job: NewJobUpdate)
    requires job.status.Some?
    ensures Set("status", Text(job.status.value)) in Collected(UpdateCandidates(job), UpdateFieldCount)
  {
    var cand := UpdateCandidates(job);
    assert cand(8).present && cand(8).item == Set("status", Text(job.status.value));
    CollectedMember(cand, UpdateFieldCount, Set("status", Text(job.status.value)));
  }

  /** An eta that fails to parse adds no eta clause. */
  lemma BadEtaIsSkipped(job: NewJobUpdate, v: SqlValue)
    requires !Parsed(job.eta)
    ensures Set("eta", v) !in Collected(UpdateCandidates(job), UpdateFieldCount)
  {
    var cand := UpdateCandidates(job);
    CollectedMember(cand, UpdateFieldCount, Set("eta", v));
    forall k | 0 <= k < UpdateFieldCount && k != 6
      ensures cand(k).item.column != "eta"
    {
    }
    assert !cand(6).present;
  }

  // ---- POST /new-jobs ----

  /** The request body of a creation. */
  datatype NewJobCreate = NewJobCreate(
    tenantId: int,
    jobNo: string,
    blNo: Option<string>,
    shippingLine: Option<string>,
    vesselName: Option<string>,
    voyageNo: Option<string>,
    pol: Option<string>,
    pod: Option<string>,
    eta: Option<DateInput>,
    customerId: Option<int>)

  /** The ten values of the INSERT. The eta is parsed only when it is truthy, and a
      text that does not parse is stored as NULL rather than refused. */
  function CreateParams(job: NewJobCreate): (ps: seq<SqlValue>)
    ensures |ps| == 10
    ensures ps[0] == Int(job.tenantId) && ps[1] == Text(job.jobNo)
    ensures ps[2] == TextOrNull(job.blNo) && ps[3] == TextOrNull(job.shippingLine)
    ensures ps[4] == TextOrNull(job.vesselName) && ps[5] == TextOrNull(job.voyageNo)
    ensures ps[6] == TextOrNull(job.pol) && ps[7] == TextOrNull(job.pod)
    ensures ps[8].Date? <==> job.eta.Some? && job.eta.value.raw != "" && job.eta.value.parsed.Some?
    ensures ps[8].Date? ==> ps[8].iso == job.eta.value.parsed.value
    ensures !ps[8].Date? ==> ps[8] == Null
    ensures ps[9] == IntOrNull(job.customerId)
  {
    var eta := if job.eta.Some? && job.eta.value.raw != "" && job.eta.value.parsed.Some?
               then Date(job.eta.value.parsed.value) else Null;
    [Int(job.tenantId), Text(job.jobNo), TextOrNull(job.blNo), TextOrNull(job.shippingLine),
     TextOrNull(job.vesselName), TextOrNull(job.voyageNo), TextOrNull(job.pol), TextOrNull(job.pod),
     eta, IntOrNull(job.customerId)]
  }

  /** The reply of the creation: a unique violation (the job number is taken within
      the tenant) is answered with 400, anything else with 500. */
  function CreateNewJob(ran: Inserted): (r: Result<int>)
    ensures r.Success? <==> ran.Inserted?
    ensures ran.Rejected? && UniqueViolation(ran.message) ==>
      r == Failure(HttpError(400, "Job number already exists for this tenant"))
    ensures ran.Rejected? && !UniqueViolation(ran.message) ==>
      r == Failure(HttpError(500, "Failed to create job: " + ran.message))
  {
    Created(ran, Some("Job number already exists for this tenant"), None, "Failed to create job: ")
  }

  /** Unlike the update, where an unparsable eta is skipped, the creation passes NULL
      in its place among the insert's parameters. */
  lemma BadEtaCreatesWithNull(job: NewJobCreate)
    requires job.eta.Some? && job.eta.value.parsed.None?
    ensures CreateParams(job)[8] == Null
  {
  }
}
