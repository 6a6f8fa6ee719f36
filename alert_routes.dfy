/** The routes of job alerts (`/alerts`): the list filter and the status update
    that stamps the sending time. */
module AlertRoutes {
  import opened Common
  import opened Strings
  import opened Sql

  // ---- GET /alerts ----

  function ListCandidate(jobId: Option<int>, status: Option<string>, k: nat): Candidate<Condition>
  {
    if k == 0 then Candidate(TruthyInt(jobId), Condition("a.job_id", IntOrNull(jobId)))
    else Candidate(TruthyStr(status), Condition("a.status", TextOrNull(status)))
  }

  /** The filters in the order the route tests them: job, then status, each when truthy. */
  function ListCandidates(jobId: Option<int>, status: Option<string>): nat -> Candidate<Condition>
  {
    (k: nat) => ListCandidate(jobId, status, k)
  }

  /** The list query: a condition per truthy filter, newest alert (highest id) first. */
  method ListAlerts(jobId: Option<int>, status: Option<string>) returns (st: Statement)
    ensures st == SelectStatement("alerts a", Collected(ListCandidates(jobId, status), 2), "a.id DESC", None)
    ensures WellFormed(st)
  {
    var conds: seq<Condition> := [];
    if TruthyInt(jobId) {
      conds := conds + [Condition("a.job_id", Int(jobId.value))];
    }
    assert conds == Collected(ListCandidates(jobId, status), 1);
    if TruthyStr(status) {
      conds := conds + [Condition("a.status", Text(status.value))];
    }
    assert conds == Collected(ListCandidates(jobId, status), 2);
    st := SelectStatement("alerts a", conds, "a.id DESC", None);
    ListWellFormed(jobId, status);
  }

  lemma ListWellFormed(jobId: Option<int>, status: Option<string>)
    ensures WellFormed(SelectStatement("alerts a", Collected(ListCandidates(jobId, status), 2), "a.id DESC", None))
  {
    FilterWellFormed("alerts a", ListCandidates(jobId, status), 2, "a.id DESC", None);
  }

  /** Each filter is bound exactly when it is truthy, the job before the status. */
  lemma ListFilters(jobId: Option<int>, status: Option<string>)
    ensures var conds := Collected(ListCandidates(jobId, status), 2);
      |conds| == (if TruthyInt(jobId) then 1 else 0) + (if TruthyStr(status) then 1 else 0) &&
      (TruthyInt(jobId) ==> conds[0] == Condition("a.job_id", Int(jobId.value))) &&
      (TruthyStr(status) ==> conds[|conds| - 1] == Condition("a.status", Text(status.value)))
  {
  }

  // ---- PUT /alerts/{alert_id} ----

  const StatusRequired := HttpError(400, "Status is required")

  /** The SET list for a new status: the status, and the sending time `now` exactly
      when the status is "sent". */
  function AlertChanges(status: string, now: string): (cs: seq<Change>)
    ensures 1 <= |cs| <= 2
    ensures cs[0] == Set("status", Text(status))
    ensures |cs| == 2 <==> status == "sent"
    ensures |cs| == 2 ==> cs[1] == Set("sent_at", Timestamp(now))
  {
    [Set("status", Text(status))] + (if status == "sent" then [Set("sent_at", Timestamp(now))] else [])
  }

  /** The update: 400 for a missing or empty status before any SQL; otherwise one of
      the two UPDATE forms, chosen by whether a sending time was taken. */
  method UpdateAlert(alertId: int, status: Option<string>, now: string, ran: Outcome<()>)
    returns (sent: Option<Statement>, r: Result<string>)
    ensures !TruthyStr(status) ==> sent == None && r == Failure(StatusRequired)
    ensures TruthyStr(status) ==>
      sent == Some(UpdateStatement("alerts", AlertChanges(status.value, now), Int(alertId))) &&
      r == Reply(ran, "Alert " + IntToString(alertId) + " not found", "Failed to update alert: ", "Alert updated")
    ensures sent.Some? ==> WellFormed(sent.value)
  {
    if !TruthyStr(status) {
      return None, Failure(StatusRequired);
    }
    var sentAt: Option<string> := None;
    if status.value == "sent" {
      sentAt := Some(now);
    }
    var changes;
    if sentAt.Some? {
      changes := [Set("status", Text(status.value)), Set("sent_at", Timestamp(sentAt.value))];
    } else {
      changes := [Set("status", Text(status.value))];
    }
    assert changes == AlertChanges(status.value, now);
    AlertColumnsSafe(status.value, now);
    UpdateWellFormed("alerts", changes, Int(alertId));
    sent := Some(UpdateStatement("alerts", changes, Int(alertId)));
    r := Reply(ran, "Alert " + IntToString(alertId) + " not found", "Failed to update alert: ", "Alert updated");
  }

  lemma AlertColumnsSafe(status: string, now: string)
    ensures SafeColumns(AlertChanges(status, now))
  {
    assert NoPercent("status") && NoPercent("sent_at");
  }

  /** Any status other than "sent" leaves sent_at as it was: the statement names no
      sent_at column. */
  lemma OtherStatusKeepsSentAt(status: string, now: string, v: SqlValue)
    requires status != "sent"
    ensures Set("sent_at", v) !in AlertChanges(status, now)
  {
  }

  // ---- POST /alerts ----

  /** The reply of the creation: a foreign-key violation (an unknown job) is answered
      with 400 "Job not found", anything else with 500. */
  function CreateAlert(ran: Inserted): (r: Result<int>)
    ensures r.Success? <==> ran.Inserted?
    ensures ran.Rejected? && ForeignKeyViolation(ran.message) ==> r == Failure(HttpError(400, "Job not found"))
    ensures ran.Rejected? && !ForeignKeyViolation(ran.message) ==>
      r == Failure(HttpError(500, "Failed to create alert: " + ran.message))
  {
    Created(ran, None, Some("Job not found"), "Failed to create alert: ")
  }
}
