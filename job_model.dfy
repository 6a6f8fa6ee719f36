/** The job record shared by the pages: the closed set of job statuses, the
    documents and checklist items a job carries, and the string form the
    statuses take in the browser. */
module JobModel {
  import opened Common

  /** The eight lifecycle statuses, in declaration order. */
  datatype JobStatus =
    | PreAlert
    | Created
    | DocsPending
    | VerificationPending
    | ApprovalPending
    | CustomsSubmitted
    | Cleared
    | Delivered

  /** Statuses in declaration order (the key order of every status table). */
  const AllStatuses: seq<JobStatus> :=
    [PreAlert, Created, DocsPending, VerificationPending, ApprovalPending, CustomsSubmitted, Cleared, Delivered]

  /** The string literal each status is spelled as. */
  function StatusName(s: JobStatus): string
  {
    match s
    case PreAlert => "pre-alert"
    case Created => "created"
    case DocsPending => "docs-pending"
    case VerificationPending => "verification-pending"
    case ApprovalPending => "approval-pending"
    case CustomsSubmitted => "customs-submitted"
    case Cleared => "cleared"
    case Delivered => "delivered"
  }

  /** Reads a status string; any other string is outside the type. */
  function ParseStatus(raw: string): (r: Option<JobStatus>)
    ensures r.Some? ==> StatusName(r.value) == raw
  {
    if raw == "pre-alert" then Some(PreAlert)
    else if raw == "created" then Some(Created)
    else if raw == "docs-pending" then Some(DocsPending)
    else if raw == "verification-pending" then Some(VerificationPending)
    else if raw == "approval-pending" then Some(ApprovalPending)
    else if raw == "customs-submitted" then Some(CustomsSubmitted)
    else if raw == "cleared" then Some(Cleared)
    else if raw == "delivered" then Some(Delivered)
    else None
  }

  /** Every status string reads back as its status, so the eight spellings are distinct. */
  lemma ParseStatusName(s: JobStatus)
    ensures ParseStatus(StatusName(s)) == Some(s)
  {
  }

  lemma AllStatusesComplete(s: JobStatus)
    ensures s in AllStatuses
  {
  }

  /** Position of a status in declaration order. */
  function Rank(s: JobStatus): (k: nat)
    ensures k < |AllStatuses| && AllStatuses[k] == s
  {
    match s
    case PreAlert => 0
    case Created => 1
    case DocsPending => 2
    case VerificationPending => 3
    case ApprovalPending => 4
    case CustomsSubmitted => 5
    case Cleared => 6
    case Delivered => 7
  }

  datatype DocumentStatus = Uploaded | Missing | Rejected
  datatype DocumentSource = Customer | Ops

  datatype Document = Document(
    id: string,
    name: string,
    status: DocumentStatus,
    source: DocumentSource,
    uploadedAt: Option<string>)

  datatype ChecklistItem = ChecklistItem(id: string, labelText: string, checked: bool)

  /** A job as the frontend sees it. `jobNumber` is optional and absent on the fixtures. */
  datatype Job = Job(
    id: string,
    jobNumber: Option<string>,
    importer: string,
    port: string,
    status: JobStatus,
    eta: string,
    pendingAction: string,
    needsAction: bool,
    containerNumber: string,
    blNumber: string,
    origin: string,
    destination: string,
    dutyAmount: int,
    invoiceAmount: int,
    documents: seq<Document>,
    checklistItems: seq<ChecklistItem>)
}
