/** The routes of legacy import jobs (`/jobs`, table `rms_import_details`): the job
    number generator, the create and update statements with their fallbacks, and the
    conversion of a job's document rows for the frontend. */
module JobRoutes {
  import opened Common
  import opened Strings
  import opened Sql

  // ---- job numbers ----

  const JobNumberPrefix := "4S/AMP/"

  /** The job number of serial `count` in the two-digit `year`: the serial zero-padded
      to at least three digits. */
  function JobNumber(count: nat, year: string): string
  {
    JobNumberPrefix + PadNat(count, 3) + "/" + year
  }

  /** The serial a job number takes: one more than the jobs of the year counted, or 1
      when the count query raised. */
  function Serial(counted: Option<nat>): (count: nat)
    ensures count >= 1
    ensures counted.Some? ==> count == counted.value + 1
    ensures counted.None? ==> count == 1
  {
    if counted.Some? then counted.value + 1 else 1
  }

  /** `generate_job_number`: `counted` is what the count query gave, None when it raised,
      and `year` is `strftime("%y")` of the current date. */
  method GenerateJobNumber(counted: Option<nat>, year: string) returns (jobNumber: string)
    ensures jobNumber == JobNumber(Serial(counted), year)
    ensures ParseJobNumber(jobNumber, year) == Some(Serial(counted))
  {
    var count: nat := 1;
    if counted.Some? {
      count := counted.value + 1;
    }
    jobNumber := "4S/AMP/" + PadNat(count, 3) + "/" + year;
    JobNumberRoundTrip(count, year);
  }

  /** The serial of a job number of the given year, None when the text is not one. */
  function ParseJobNumber(s: string, year: string): Option<nat>
  {
    var p := |JobNumberPrefix|;
    var e := |s| - |year| - 1;
    if p <= e && s[..p] == JobNumberPrefix && s[e..] == "/" + year && AllDigits(s[p..e])
    then Some(DigitsValue(s[p..e]))
    else None
  }

  /** Reading a generated number back gives its serial, and the serial part has at
      least three digits. */
  lemma JobNumberRoundTrip(count: nat, year: string)
    ensures ParseJobNumber(JobNumber(count, year), year) == Some(count)
    ensures |JobNumber(count, year)| >= |JobNumberPrefix| + 3 + 1 + |year|
  {
    var d := PadNat(count, 3);
    var tail := "/" + year;
    assert JobNumber(count, year) == JobNumberPrefix + d + tail;
    ThreeParts(JobNumberPrefix, d, tail);
  }

  /** The three pieces of a concatenation are recovered by slicing at their lengths. */
  lemma ThreeParts(a: string, b: string, c: string)
    ensures (a + b + c)[..|a|] == a
    ensures (a + b + c)[|a|..|a| + |b|] == b
    ensures (a + b + c)[|a| + |b|..] == c
  {
    var s := a + b + c;
    assert forall i :: 0 <= i < |a| ==> s[i] == a[i];
    assert forall i :: 0 <= i < |b| ==> s[|a| + i] == b[i];
    assert forall i :: 0 <= i < |c| ==> s[|a| + |b| + i] == c[i];
  }

  /** When the count query fails the serial falls back to 1: the number is 001. */
  lemma FallbackJobNumber(year: string)
    ensures JobNumber(Serial(None), year) == "4S/AMP/001/" + year
  {
    var d := PadNat(1, 3);
    assert NatToString(1) == "1";
    assert |d| == 3 && DigitsValue(d) == 1;
    assert d == "001" by {
      DigitsOfOne(d);
    }
  }

  lemma DigitsOfOne(d: string)
    requires |d| == 3 && AllDigits(d) && DigitsValue(d) == 1
    ensures d == "001"
  {
    assert d[..2][..1] == d[..1] && d[..1][..0] == [];
    assert DigitsValue(d) == 10 * DigitsValue(d[..2]) + DigitValue(d[2]);
    assert DigitsValue(d[..2]) == 10 * DigitsValue(d[..1]) + DigitValue(d[1]);
    assert DigitsValue(d[..1]) == DigitValue(d[0]);
    assert DigitChar(DigitValue(d[0])) == '0' && DigitChar(DigitValue(d[1])) == '0' && DigitChar(DigitValue(d[2])) == '1';
  }

  /** Two serials of the same year never share a number. */
  lemma JobNumberInjective(a: nat, b: nat, year: string)
    requires JobNumber(a, year) == JobNumber(b, year)
    ensures a == b
  {
    JobNumberRoundTrip(a, year);
    JobNumberRoundTrip(b, year);
  }

  // ---- POST /jobs and PUT /jobs/{job_id} ----

  /** The request body of both routes. `eta` carries the outcome of
      `strptime(eta, "%Y-%m-%d")`; `remarks` is accepted but never stored. */
  datatype JobRequest = JobRequest(
    importer: string,
    port: string,
    eta: DateInput,
    containerNumber: Option<string>,
    blNumber: Option<string>,
    origin: Option<string>,
    vesselName: Option<string>,
    numCartons: Option<int>,
    weight: Option<string>,
    remarks: Option<string>)

  /** The stored remarks: the port and the container number, "TBD" when it is falsy. */
  function JobRemarks(port: string, containerNumber: Option<string>): string
  {
    "Port: " + port + ", Container: " + OrElse(containerNumber, Some("TBD")).value
  }

  /** The arrival date: the parsed date, or NULL when the text does not parse. */
  function EtaValue(eta: DateInput): SqlValue
  {
    if eta.parsed.Some? then Date(eta.parsed.value) else Null
  }

  /** The seven values both routes store, in the order of the legacy columns. */
  function JobValues(j: JobRequest): (vs: seq<SqlValue>)
    ensures |vs| == 7
    ensures vs[0] == Text(j.importer)
    ensures vs[1] == TextOrNull(if TruthyStr(j.vesselName) then j.vesselName else j.origin)
    ensures vs[3] == (if j.eta.parsed.Some? then Date(j.eta.parsed.value) else Null)
    ensures vs[6] == Text("Port: " + j.port + ", Container: " +
                          (if TruthyStr(j.containerNumber) then j.containerNumber.value else "TBD"))
  {
    [Text(j.importer), TextOrNull(OrElse(j.vesselName, j.origin)), TextOrNull(j.blNumber), EtaValue(j.eta),
     IntOrNull(j.numCartons), TextOrNull(j.weight), Text(JobRemarks(j.port, j.containerNumber))]
  }

  /** The remarks of the request never reach the database. */
  lemma RequestRemarksIgnored(j: JobRequest, other: Option<string>)
    ensures JobValues(j) == JobValues(j.(remarks := other))
  {
  }

  /** What the creation answers. */
  datatype JobCreated = JobCreated(id: int, jobNumber: string, importer: string, port: string, status: string, message: string)

  /** The creation: a job number first, then the INSERT with the number and the seven
      values; every failure is answered with 500. */
  method CreateJob(j: JobRequest, counted: Option<nat>, year: string, ran: Inserted)
    returns (params: seq<SqlValue>, r: Result<JobCreated>)
    ensures params == [Text(JobNumber(Serial(counted), year))] + JobValues(j)
    ensures ran.Inserted? ==> r == Success(JobCreated(ran.id, JobNumber(Serial(counted), year), j.importer, j.port,
                                                      "created", "Job " + JobNumber(Serial(counted), year) + " created successfully"))
    ensures ran.Rejected? ==> r == Failure(HttpError(500, "Failed to create job: " + ran.message))
  {
    var jobNumber := GenerateJobNumber(counted, year);
    var etaDate := if j.eta.parsed.Some? then Date(j.eta.parsed.value) else Null;
    params := [Text(jobNumber), Text(j.importer), TextOrNull(OrElse(j.vesselName, j.origin)), TextOrNull(j.blNumber),
               etaDate, IntOrNull(j.numCartons), TextOrNull(j.weight), Text(JobRemarks(j.port, j.containerNumber))];
    match ran
    case Inserted(newId) =>
      r := Success(JobCreated(newId, jobNumber, j.importer, j.port, "created", "Job " + jobNumber + " created successfully"));
    case Rejected(e) =>
      r := Failure(HttpError(500, "Failed to create job: " + e));
  }

  /** The legacy column names, quoted as the table declares them. */
  const JobColumns: seq<string> := ["\"Name of the Importer\"", "\"Vessel Name\"", "\"HAWB BL No.\"",
    "\"Documents Received on\"", "\"No. of Cartons\"", "\"Weight\"", "\"Remarks\""]

  /** The SET list of the update: all seven columns, whatever the request holds. */
  function JobChanges(j: JobRequest): (cs: seq<Change>)
    ensures |cs| == 7
    ensures forall k :: 0 <= k < 7 ==> cs[k] == Set(JobColumns[k], JobValues(j)[k])
  {
    var vs := JobValues(j);
    seq(7, k requires 0 <= k < 7 => Set(JobColumns[k], vs[k]))
  }

  /** The update: the seven columns overwritten and the job id bound last; 404 when no
      row comes back. */
  method UpdateJob(jobId: int, j: JobRequest, ran: Outcome<()>) returns (sent: Statement, r: Result<string>)
    ensures sent == UpdateStatement("rms_import_details", JobChanges(j), Int(jobId))
    ensures WellFormed(sent) && sent.params == JobValues(j) + [Int(jobId)]
    ensures r == Reply(ran, "Job with ID " + IntToString(jobId) + " not found", "Failed to update job: ", "Job updated successfully")
  {
    var changes := JobChanges(j);
    JobColumnsSafe(j);
    UpdateWellFormed("rms_import_details", changes, Int(jobId));
    ValuesOfSets(changes);
    assert Values(changes) == JobValues(j);
    sent := UpdateStatement("rms_import_details", changes, Int(jobId));
    r := Reply(ran, "Job with ID " + IntToString(jobId) + " not found", "Failed to update job: ", "Job updated successfully");
  }

  lemma JobColumnsSafe(j: JobRequest)
    ensures NoPercent("rms_import_details") && SafeColumns(JobChanges(j))
  {
    PlainName("rms_import_details");
    JobColumnsPlain();
  }

  lemma JobColumnsPlain()
    ensures forall k :: 0 <= k < |JobColumns| ==> NoPercent(JobColumns[k])
  {
    ImporterColumnsPlain();
    PlainName("\"No. of Cartons\"");
    PlainName("\"Weight\"");
    PlainName("\"Remarks\"");
  }

  lemma ImporterColumnsPlain()
    ensures NoPercent("\"Name of the Importer\"") && NoPercent("\"Vessel Name\"")
    ensures NoPercent("\"HAWB BL No.\"") && NoPercent("\"Documents Received on\"")
  {
    PlainName("\"Name of the Importer\"");
    PlainName("\"Vessel Name\"");
    PlainName("\"HAWB BL No.\"");
    PlainName("\"Documents Received on\"");
  }

  /** The update replaces the whole record: a field left out of the request clears
      its column, e.g. no bill of lading writes NULL. */
  lemma UpdateClearsOmitted(j: JobRequest)
    requires j.blNumber.None? && j.numCartons.None? && j.weight.None?
    ensures Set("\"HAWB BL No.\"", Null) in JobChanges(j)
    ensures Set("\"No. of Cartons\"", Null) in JobChanges(j)
    ensures Set("\"Weight\"", Null) in JobChanges(j)
  {
    var cs := JobChanges(j);
    assert cs[2] == Set("\"HAWB BL No.\"", Null);
    assert cs[4] == Set("\"No. of Cartons\"", Null);
    assert cs[5] == Set("\"Weight\"", Null);
  }

  // ---- GET /jobs/{job_id}: the document rows ----

  /** A value of the JSON answer. */
  datatype Cell = IntCell(i: int) | TextCell(s: string) | NullCell

  function TextCellOrNull(s: Option<string>): Cell
  {
    if s.Some? then TextCell(s.value) else NullCell
  }

  /** A row of `job_documents`; `uploadedAt` is the `isoformat()` of the timestamp,
      None when it is NULL. */
  datatype DocumentRow = DocumentRow(id: int, name: Option<string>, status: Option<string>, source: Option<string>,
                                     uploadedAt: Option<string>)

  /** The row as `dict(zip(doc_columns, row))`. */
  function RowDict(d: DocumentRow): map<string, Cell>
  {
    map["id" := IntCell(d.id), "name" := TextCellOrNull(d.name), "status" := TextCellOrNull(d.status),
        "source" := TextCellOrNull(d.source), "uploaded_at" := TextCellOrNull(d.uploadedAt)]
  }

  /** What the frontend receives for one row: `uploaded_at` always removed, `uploadedAt`
      present exactly when the timestamp was set; the other four keys unchanged. */
  function DocumentView(d: DocumentRow): (v: map<string, Cell>)
    ensures "uploaded_at" !in v
    ensures "uploadedAt" in v <==> d.uploadedAt.Some?
    ensures "uploadedAt" in v ==> v["uploadedAt"] == TextCell(d.uploadedAt.value)
    ensures forall key :: key != "uploadedAt" ==> (key in v <==> key in RowDict(d) && key != "uploaded_at")
    ensures forall key :: key in v && key != "uploadedAt" ==> v[key] == RowDict(d)[key]
  {
    var row := RowDict(d);
    var withCamel := if d.uploadedAt.Some? then row["uploadedAt" := TextCell(d.uploadedAt.value)] else row;
    withCamel - {"uploaded_at"}
  }

  /** The loop over the fetched rows: each row becomes a dictionary, gains `uploadedAt`
      when its timestamp is set, loses `uploaded_at`, and is appended in row order. */
  method DocumentViews(rows: seq<DocumentRow>) returns (docs: seq<map<string, Cell>>)
    ensures |docs| == |rows|
    ensures forall i :: 0 <= i < |rows| ==> docs[i] == DocumentView(rows[i])
  {
    docs := [];
    for i := 0 to |rows|
      invariant |docs| == i
      invariant forall k :: 0 <= k < i ==> docs[k] == DocumentView(rows[k])
    {
      var d := RowDict(rows[i]);
      if rows[i].uploadedAt.Some? {
        d := d["uploadedAt" := TextCell(rows[i].uploadedAt.value)];
      }
      d := d - {"uploaded_at"};
      docs := docs + [d];
    }
  }
}
