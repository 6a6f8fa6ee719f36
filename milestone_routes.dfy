/** The routes of job milestones (`/milestones`): the list filter, the update with
    its automatic completion time, and the initialisation of a job's milestones
    from the active templates. */
module MilestoneRoutes {
  import opened Common
  import opened Strings
  import opened Seqs
  import opened Sql

  // ---- GET /milestones ----

  function ListCandidate(jobId: Option<int>, status: Option<string>, k: nat): Candidate<Condition>
  {
    if k == 0 then Candidate(TruthyInt(jobId), Condition("m.job_id", IntOrNull(jobId)))
    else Candidate(TruthyStr(status), Condition("m.status", TextOrNull(status)))
  }

  /** The filters in the order the route tests them: job, then status, each when truthy. */
  function ListCandidates(jobId: Option<int>, status: Option<string>): nat -> Candidate<Condition>
  {
    (k: nat) => ListCandidate(jobId, status, k)
  }

  /** The list query: a condition per truthy filter, oldest milestone first. */
  method ListMilestones(jobId: Option<int>, status: Option<string>) returns (st: Statement)
    ensures st == SelectStatement("job_milestones m", Collected(ListCandidates(jobId, status), 2), "m.created_at", None)
    ensures WellFormed(st)
  {
    var conds: seq<Condition> := [];
    if TruthyInt(jobId) {
      conds := conds + [Condition("m.job_id", Int(jobId.value))];
    }
    assert conds == Collected(ListCandidates(jobId, status), 1);
    if TruthyStr(status) {
      conds := conds + [Condition("m.status", Text(status.value))];
    }
    assert conds == Collected(ListCandidates(jobId, status), 2);
    st := SelectStatement("job_milestones m", conds, "m.created_at", None);
    ListWellFormed(jobId, status);
  }

  lemma ListWellFormed(jobId: Option<int>, status: Option<string>)
    ensures WellFormed(SelectStatement("job_milestones m", Collected(ListCandidates(jobId, status), 2), "m.created_at", None))
  {
    FilterWellFormed("job_milestones m", ListCandidates(jobId, status), 2, "m.created_at", None);
  }

  /** A job id of 0 filters nothing, since the test is truthiness. */
  lemma ZeroJobIdIsNoFilter(status: Option<string>)
    ensures Collected(ListCandidates(Some(0), status), 2) == Collected(ListCandidates(None, status), 2)
  {
    assert ListCandidates(Some(0), status)(0).present == ListCandidates(None, status)(0).present == false;
    assert ListCandidates(Some(0), status)(1) == ListCandidates(None, status)(1);
  }

  // ---- PUT /milestones/{milestone_id} ----

  /** The request body of an update; `completedAt` carries the outcome of
      `datetime.fromisoformat`. */
  datatype MilestoneUpdate = MilestoneUpdate(status: Option<string>, completedAt: Option<DateInput>, remarks: Option<string>)

  /** `if milestone.completed_at:` — sent and not empty. */
  predicate CompletedAtGiven(m: MilestoneUpdate)
  {
    m.completedAt.Some? && m.completedAt.value.raw != ""
  }

  /** The completion time is written from the request: given and parsable. */
  predicate CompletedAtParsed(m: MilestoneUpdate)
  {
    CompletedAtGiven(m) && m.completedAt.value.parsed.Some?
  }

  /** The completion time is stamped by the database: status "completed" and no time given. */
  predicate AutoCompleted(m: MilestoneUpdate)
  {
    TruthyStr(m.status) && m.status.value == "completed" && !CompletedAtGiven(m)
  }

  function UpdateCandidate(m: MilestoneUpdate, k: nat): Candidate<Change>
  {
    match k
    case 0 => Candidate(TruthyStr(m.status), Set("status", TextOrNull(m.status)))
    case 1 => Candidate(AutoCompleted(m), SetNow("completed_at"))
    case 2 => Candidate(CompletedAtParsed(m),
                Set("completed_at", if CompletedAtParsed(m) then Timestamp(m.completedAt.value.parsed.value) else Null))
    case _ => Candidate(m.remarks.Some?, Set("remarks", TextOrNull(m.remarks)))
  }

  /** The update's clauses in the order the route appends them. */
  function UpdateCandidates(m: MilestoneUpdate): nat -> Candidate<Change>
  {
    (k: nat) => UpdateCandidate(m, k)
  }

  /** The SET list of an update, built clause by clause. */
  method MilestoneChanges(m: MilestoneUpdate) returns (updates: seq<Change>)
    ensures updates == Collected(UpdateCandidates(m), 4)
  {
    updates := [];
    if TruthyStr(m.status) {
      updates := updates + [Set("status", Text(m.status.value))];
      if m.status.value == "completed" && !CompletedAtGiven(m) {
        updates := updates + [SetNow("completed_at")];
      }
    }
    assert updates == Collected(UpdateCandidates(m), 2);
    if CompletedAtGiven(m) {
      match m.completedAt.value.parsed
      case Some(completed) => updates := updates + [Set("completed_at", Timestamp(completed))];
      case None =>
    }
    assert updates == Collected(UpdateCandidates(m), 3);
    if m.remarks.Some? {
      updates := updates + [Set("remarks", Text(m.remarks.value))];
    }
  }

  /** The update: 400 before any SQL when no clause was built, otherwise one
      placeholder per parameter with the milestone id bound last. */
  method UpdateMilestone(milestoneId: int, m: MilestoneUpdate, ran: Outcome<()>) returns (sent: Option<Statement>, r: Result<string>)
    ensures var updates := Collected(UpdateCandidates(m), 4);
      if updates == [] then sent == None && r == Failure(NoFieldsToUpdate)
      else sent == Some(UpdateStatement("job_milestones", updates, Int(milestoneId))) &&
           r == Reply(ran, "Milestone " + IntToString(milestoneId) + " not found", "Failed to update milestone: ", "Milestone updated")
    ensures sent.Some? ==> WellFormed(sent.value) && sent.value.params[|sent.value.params| - 1] == Int(milestoneId)
  {
    var updates := MilestoneChanges(m);
    ColumnsSafe(m);
    PlainName("job_milestones");
    sent, r := SendUpdate("job_milestones", updates, Int(milestoneId),
      Reply(ran, "Milestone " + IntToString(milestoneId) + " not found", "Failed to update milestone: ", "Milestone updated"));
  }

  lemma ColumnsSafe(m: MilestoneUpdate)
    ensures SafeColumns(Collected(UpdateCandidates(m), 4))
  {
    forall k | 0 <= k < 4
      ensures NoPercent(UpdateCandidates(m)(k).item.column)
    {
      match k
      case 0 => case 1 => case 2 => case _ =>
    }
    CollectedSafe(UpdateCandidates(m), 4);
  }

  /** The 400 answer comes exactly when the status is falsy, no parsable completion
      time is given and remarks are None. */
  lemma NothingToUpdate(m: MilestoneUpdate)
    ensures Collected(UpdateCandidates(m), 4) == [] <==>
      !TruthyStr(m.status) && !CompletedAtParsed(m) && m.remarks.None?
  {
    CollectedEmpty(UpdateCandidates(m), 4);
    assert UpdateCandidates(m)(0).present == TruthyStr(m.status);
    assert UpdateCandidates(m)(2).present == CompletedAtParsed(m);
    assert UpdateCandidates(m)(3).present == m.remarks.Some?;
  }

  /** The database stamps the completion time exactly when the status becomes
      "completed" without a completion time in the request. */
  lemma AutoCompletion(m: MilestoneUpdate)
    ensures SetNow("completed_at") in Collected(UpdateCandidates(m), 4) <==>
      m.status == Some("completed") && !CompletedAtGiven(m)
  {
    var cand := UpdateCandidates(m);
    CollectedMember(cand, 4, SetNow("completed_at"));
    assert cand(0).item.Set? && cand(2).item.Set? && cand(3).item.Set?;
    assert cand(1).item == SetNow("completed_at");
  }

  /** Never two completion times: the stamped one and the given one exclude each other. */
  lemma AtMostOneCompletedAt(m: MilestoneUpdate, v: SqlValue)
    ensures !(SetNow("completed_at") in Collected(UpdateCandidates(m), 4) &&
              Set("completed_at", v) in Collected(UpdateCandidates(m), 4))
  {
    var cand := UpdateCandidates(m);
    AutoCompletion(m);
    CollectedMember(cand, 4, Set("completed_at", v));
    assert cand(0).item.column == "status" && cand(3).item.column == "remarks";
    assert cand(1).item.SetNow?;
    assert cand(2).present ==> CompletedAtGiven(m);
  }

  /** Sending "completed" with a completion time that does not parse writes the status
      and no completion time at all. */
  lemma CompletedWithBadTime(raw: string)
    requires raw != ""
    ensures var m := MilestoneUpdate(Some("completed"), Some(DateInput(raw, None)), None);
      Collected(UpdateCandidates(m), 4) == [Set("status", Text("completed"))]
  {
    var m := MilestoneUpdate(Some("completed"), Some(DateInput(raw, None)), None);
    assert !AutoCompleted(m) && !CompletedAtParsed(m);
  }

  // ---- POST /milestones/init/{job_id} ----

  /** A row of `milestone_templates` (stage, milestone_code, milestone_name). */
  datatype Template = Template(stage: string, code: string, name: string)

  /** The parameters of the INSERT issued for one template. */
  function InsertParams(jobId: int, t: Template): seq<SqlValue>
  {
    [Int(jobId), Text(t.stage), Text(t.code), Text(t.name)]
  }

  /** The initialisation: one INSERT … ON CONFLICT DO NOTHING per active template, in
      template order, committed together; the reported count is the sum of the inserts'
      row counts. `failed` is the message of the first statement that raised (the job
      lookup, the template query or an insert): the transaction is rolled back and the
      answer is 500. Otherwise a job the lookup did not find is answered with 404 before
      any insert. `inserts` are the inserts whose effect is committed. */
  method InitializeMilestones(jobId: int, jobExists: bool, templates: seq<Template>, rowcounts: seq<int>,
                              failed: Option<string>)
    returns (inserts: seq<seq<SqlValue>>, r: Result<string>)
    requires |rowcounts| == |templates|
    ensures failed.Some? ==>
      inserts == [] && r == Failure(HttpError(500, "Failed to initialize milestones: " + failed.value))
    ensures failed.None? && !jobExists ==>
      inserts == [] && r == Failure(HttpError(404, "Job " + IntToString(jobId) + " not found"))
    ensures r.Success? <==> failed.None? && jobExists
    ensures r.Success? ==> |inserts| == |templates|
    ensures r.Success? ==> forall i :: 0 <= i < |templates| ==> inserts[i] == InsertParams(jobId, templates[i])
    ensures r.Success? ==>
      r == Success("Initialized " + IntToString(Sum(rowcounts, (n: int) => n)) + " milestones for job " + IntToString(jobId))
  {
    if failed.Some? {
      return [], Failure(HttpError(500, "Failed to initialize milestones: " + failed.value));
    }
    if !jobExists {
      return [], Failure(HttpError(404, "Job " + IntToString(jobId) + " not found"));
    }
    var count := 0;
    inserts := [];
    for i := 0 to |templates|
      invariant |inserts| == i
      invariant forall j :: 0 <= j < i ==> inserts[j] == InsertParams(jobId, templates[j])
      invariant count == Sum(rowcounts[..i], (n: int) => n)
    {
      inserts := inserts + [InsertParams(jobId, templates[i])];
      assert rowcounts[..i + 1] == rowcounts[..i] + [rowcounts[i]];
      SumSnoc(rowcounts[..i], rowcounts[i], (n: int) => n);
      count := count + rowcounts[i];
    }
    assert rowcounts[..|templates|] == rowcounts;
    r := Success("Initialized " + IntToString(count) + " milestones for job " + IntToString(jobId));
  }

  /** With ON CONFLICT DO NOTHING each insert reports 0 or 1 rows, so the count never
      exceeds the number of templates. */
  lemma InitializedAtMostTemplates(rowcounts: seq<int>)
    requires forall k :: 0 <= k < |rowcounts| ==> 0 <= rowcounts[k] <= 1
    ensures 0 <= Sum(rowcounts, (n: int) => n) <= |rowcounts|
  {
    SumOfBits(rowcounts, (n: int) => n);
  }

  // ---- POST /milestones ----

  /** The reply of the creation: a foreign-key violation (an unknown job) is answered
      with 400 "Job not found", anything else with 500. */
  function CreateMilestone(ran: Inserted): (r: Result<int>)
    ensures r.Success? <==> ran.Inserted?
    ensures ran.Rejected? && ForeignKeyViolation(ran.message) ==> r == Failure(HttpError(400, "Job not found"))
    ensures ran.Rejected? && !ForeignKeyViolation(ran.message) ==>
      r == Failure(HttpError(500, "Failed to create milestone: " + ran.message))
  {
    Created(ran, None, Some("Job not found"), "Failed to create milestone: ")
  }
}
