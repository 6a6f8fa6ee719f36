/** The routes of transport records (`/transport`): the list restricted by job, the
    update builder, and the two endpoints that stamp gate-out and delivery times. */
module TransportRoutes {
  import opened Common
  import opened Strings
  import opened Sql

  // ---- GET /transport ----

  /** The list query: restricted to one job exactly when the job id is truthy. */
  method ListTransport(jobId: Option<int>) returns (st: Statement)
    ensures TruthyInt(jobId) ==> st == LookupStatement("transport t", "t.job_id", Int(jobId.value))
    ensures !TruthyInt(jobId) ==> st == ScanStatement("transport t")
    ensures WellFormed(st)
    ensures |st.params| == (if TruthyInt(jobId) then 1 else 0)
  {
    if TruthyInt(jobId) {
      st := LookupStatement("transport t", "t.job_id", Int(jobId.value));
      LookupWellFormed("transport t", "t.job_id", Int(jobId.value));
    } else {
      st := ScanStatement("transport t");
      ScanWellFormed("transport t");
    }
  }

  // ---- PUT /transport/{transport_id} ----

  /** The request body of an update; the two times carry the outcome of
      `datetime.fromisoformat`. */
  datatype TransportUpdate = TransportUpdate(
    transporterName: Option<string>,
    vehicleNo: Option<string>,
    driverPhone: Option<string>,
    gateOutTime: Option<DateInput>,
    deliveredTime: Option<DateInput>)

  /** A time is written when it is truthy and parses. */
  predicate TimeGiven(t: Option<DateInput>)
  {
    t.Some? && t.value.raw != "" && t.value.parsed.Some?
  }

  function TimeValue(t: Option<DateInput>): SqlValue
  {
    if TimeGiven(t) then Timestamp(t.value.parsed.value) else Null
  }

  function UpdateCandidate(t: TransportUpdate, k: nat): Candidate<Change>
  {
    match k
    case 0 => Candidate(t.transporterName.Some?, Set("transporter_name", TextOrNull(t.transporterName)))
    case 1 => Candidate(t.vehicleNo.Some?, Set("vehicle_no", TextOrNull(t.vehicleNo)))
    case 2 => Candidate(t.driverPhone.Some?, Set("driver_phone", TextOrNull(t.driverPhone)))
    case 3 => Candidate(TimeGiven(t.gateOutTime), Set("gate_out_time", TimeValue(t.gateOutTime)))
    case _ => Candidate(TimeGiven(t.deliveredTime), Set("delivered_time", TimeValue(t.deliveredTime)))
  }

  /** The update's fields in the order the route tests them. */
  function UpdateCandidates(t: TransportUpdate): nat -> Candidate<Change>
  {
    (k: nat) => UpdateCandidate(t, k)
  }

  /** The SET list of an update, built field by field. */
  method TransportChanges(t: TransportUpdate) returns (updates: seq<Change>)
    ensures updates == Collected(UpdateCandidates(t), 5)
  {
    updates := [];
    if t.transporterName.Some? { updates := updates + [Set("transporter_name", Text(t.transporterName.value))]; }
    assert updates == Collected(UpdateCandidates(t), 1);
    if t.vehicleNo.Some? { updates := updates + [Set("vehicle_no", Text(t.vehicleNo.value))]; }
    assert updates == Collected(UpdateCandidates(t), 2);
    if t.driverPhone.Some? { updates := updates + [Set("driver_phone", Text(t.driverPhone.value))]; }
    assert updates == Collected(UpdateCandidates(t), 3);
    if t.gateOutTime.Some? && t.gateOutTime.value.raw != "" {
      match t.gateOutTime.value.parsed
      case Some(gateOut) => updates := updates + [Set("gate_out_time", Timestamp(gateOut))];
      case None =>
    }
    assert updates == Collected(UpdateCandidates(t), 4);
    if t.deliveredTime.Some? && t.deliveredTime.value.raw != "" {
      match t.deliveredTime.value.parsed
      case Some(delivered) => updates := updates + [Set("delivered_time", Timestamp(delivered))];
      case None =>
    }
  }

  /** The update: 400 before any SQL when nothing is written, otherwise one
      placeholder per parameter with the transport id bound last. */
  method UpdateTransport(transportId: int, t: TransportUpdate, ran: Outcome<()>) returns (sent: Option<Statement>, r: Result<string>)
    ensures var updates := Collected(UpdateCandidates(t), 5);
      if updates == [] then sent == None && r == Failure(NoFieldsToUpdate)
      else sent == Some(UpdateStatement("transport", updates, Int(transportId))) &&
           r == Reply(ran, "Transport " + IntToString(transportId) + " not found", "Failed to update transport: ", "Transport record updated")
    ensures sent.Some? ==> WellFormed(sent.value) && sent.value.params[|sent.value.params| - 1] == Int(transportId)
  {
    var updates := TransportChanges(t);
    ColumnsSafe(t);
    PlainName("transport");
    sent, r := SendUpdate("transport", updates, Int(transportId),
      Reply(ran, "Transport " + IntToString(transportId) + " not found", "Failed to update transport: ", "Transport record updated"));
  }

  lemma ColumnsSafe(t: TransportUpdate)
    ensures SafeColumns(Collected(UpdateCandidates(t), 5))
  {
    PlainName("transporter_name");
    PlainName("vehicle_no");
    PlainName("driver_phone");
    PlainName("gate_out_time");
    PlainName("delivered_time");
    CollectedSafe(UpdateCandidates(t), 5);
  }

  /** The three contact fields are written whenever they are not None, the empty
      string included. */
  lemma EmptyContactIsWritten(t: TransportUpdate)
    requires t.transporterName == Some("")
    ensures Set("transporter_name", Text("")) in Collected(UpdateCandidates(t), 5)
  {
    assert UpdateCandidates(t)(0) == Candidate(true, Set("transporter_name", Text("")));
    CollectedMember(UpdateCandidates(t), 5, Set("transporter_name", Text("")));
  }

  /** A time that is empty or does not parse is skipped rather than rejected, for the
      gate-out and the delivery time alike. */
  lemma BadTimeIsSkipped(t: TransportUpdate, v: SqlValue)
    ensures !TimeGiven(t.gateOutTime) ==> Set("gate_out_time", v) !in Collected(UpdateCandidates(t), 5)
    ensures !TimeGiven(t.deliveredTime) ==> Set("delivered_time", v) !in Collected(UpdateCandidates(t), 5)
  {
    var cand := UpdateCandidates(t);
    CollectedMember(cand, 5, Set("gate_out_time", v));
    CollectedMember(cand, 5, Set("delivered_time", v));
    forall k | 0 <= k < 5 && k != 3
      ensures cand(k).item.column != "gate_out_time"
    {
    }
    forall k | 0 <= k < 5 && k != 4
      ensures cand(k).item.column != "delivered_time"
    {
    }
    assert cand(3).present == TimeGiven(t.gateOutTime);
    assert cand(4).present == TimeGiven(t.deliveredTime);
  }

  /** The 400 answer comes exactly when no contact field is sent and no time is
      given and parsable. */
  lemma NothingToUpdate(t: TransportUpdate)
    ensures Collected(UpdateCandidates(t), 5) == [] <==>
      t.transporterName.None? && t.vehicleNo.None? && t.driverPhone.None? &&
      !TimeGiven(t.gateOutTime) && !TimeGiven(t.deliveredTime)
  {
    var cand := UpdateCandidates(t);
    CollectedEmpty(cand, 5);
    assert cand(0).present == t.transporterName.Some?;
    assert cand(1).present == t.vehicleNo.Some?;
    assert cand(2).present == t.driverPhone.Some?;
    assert cand(3).present == TimeGiven(t.gateOutTime);
    assert cand(4).present == TimeGiven(t.deliveredTime);
  }

  // ---- PUT /transport/{transport_id}/gate-out and /delivered ----

  /** Gate-out: the database clock stamps gate_out_time and nothing else. */
  method MarkGateOut(transportId: int, ran: Outcome<()>) returns (sent: Statement, r: Result<string>)
    ensures sent == UpdateStatement("transport", [SetNow("gate_out_time")], Int(transportId))
    ensures WellFormed(sent) && sent.params == [Int(transportId)]
    ensures r == Reply(ran, "Transport " + IntToString(transportId) + " not found", "Failed to update: ", "Gate out recorded")
  {
    assert NoPercent("gate_out_time");
    UpdateWellFormed("transport", [SetNow("gate_out_time")], Int(transportId));
    sent := UpdateStatement("transport", [SetNow("gate_out_time")], Int(transportId));
    r := Reply(ran, "Transport " + IntToString(transportId) + " not found", "Failed to update: ", "Gate out recorded");
  }

  /** Delivery: the database clock stamps delivered_time and nothing else. */
  method MarkDelivered(transportId: int, ran: Outcome<()>) returns (sent: Statement, r: Result<string>)
    ensures sent == UpdateStatement("transport", [SetNow("delivered_time")], Int(transportId))
    ensures WellFormed(sent) && sent.params == [Int(transportId)]
    ensures r == Reply(ran, "Transport " + IntToString(transportId) + " not found", "Failed to update: ", "Delivery recorded")
  {
    assert NoPercent("delivered_time");
    UpdateWellFormed("transport", [SetNow("delivered_time")], Int(transportId));
    sent := UpdateStatement("transport", [SetNow("delivered_time")], Int(transportId));
    r := Reply(ran, "Transport " + IntToString(transportId) + " not found", "Failed to update: ", "Delivery recorded");
  }

  // ---- POST /transport ----

  /** The reply of the creation: a foreign-key violation (an unknown job) is answered
      with 400 "Job not found", anything else with 500. */
  function CreateTransport(ran: Inserted): (r: Result<int>)
    ensures r.Success? <==> ran.Inserted?
    ensures ran.Rejected? && ForeignKeyViolation(ran.message) ==> r == Failure(HttpError(400, "Job not found"))
    ensures ran.Rejected? && !ForeignKeyViolation(ran.message) ==>
      r == Failure(HttpError(500, "Failed to create transport record: " + ran.message))
  {
    Created(ran, None, Some("Job not found"), "Failed to create transport record: ")
  }
}
