/** The frontend's fixture module. It repeats the status label table, the
    timeline and the step-index switch of the shared constants, and adds
    per-status counts and the eight sample jobs every page renders. */
module DummyData {
  import opened Common
  import opened JobModel
  import Constants

  function StatusLabel(s: JobStatus): string
  {
    match s
    case PreAlert => "Pre-Alert Received"
    case Created => "Job Created"
    case DocsPending => "Documents Pending"
    case VerificationPending => "Verification Pending"
    case ApprovalPending => "Approval Pending"
    case CustomsSubmitted => "Customs Submitted"
    case Cleared => "Cleared"
    case Delivered => "Delivered"
  }

  /** The fixture copy of the label table agrees entry by entry with the shared one. */
  lemma StatusLabelAgrees(s: JobStatus)
    ensures StatusLabel(s) == Constants.StatusLabel(s)
  {
  }

  const TimelineSteps: seq<string> :=
    ["Pre-Alert", "Docs", "Verification", "Entry", "Checklist", "Approval",
     "Customs", "Clearance", "Delivery", "Billing", "Closed"]

  lemma TimelineStepsAgree()
    ensures TimelineSteps == Constants.TimelineSteps
  {
  }

  function StepIndex(status: string): (i: nat)
    ensures i < |TimelineSteps|
  {
    if status == "pre-alert" then 0
    else if status == "created" then 1
    else if status == "docs-pending" then 1
    else if status == "verification-pending" then 2
    else if status == "approval-pending" then 5
    else if status == "customs-submitted" then 6
    else if status == "cleared" then 7
    else if status == "delivered" then 8
    else 0
  }

  /** Both copies of the switch give the same step for every string, the default included. */
  lemma StepIndexAgrees(status: string)
    ensures StepIndex(status) == Constants.StepIndex(status)
  {
  }

  function StatusCount(s: JobStatus): (n: nat)
  {
    match s
    case PreAlert => 12
    case Created => 8
    case DocsPending => 15
    case VerificationPending => 6
    case ApprovalPending => 4
    case CustomsSubmitted => 9
    case Cleared => 23
    case Delivered => 45
  }

  /** Every count is positive and the eight of them add up to 122. */
  lemma StatusCountsTotal()
    ensures forall s: JobStatus :: StatusCount(s) > 0
    ensures StatusCount(PreAlert) + StatusCount(Created) + StatusCount(DocsPending)
          + StatusCount(VerificationPending) + StatusCount(ApprovalPending)
          + StatusCount(CustomsSubmitted) + StatusCount(Cleared) + StatusCount(Delivered) == 122
  {
  }

  function Doc(id: string, name: string, status: DocumentStatus, source: DocumentSource, at: string): Document
  {
    Document(id, name, status, source, if at == "" then None else Some(at))
  }

  const FullChecklist: seq<ChecklistItem> := [
    ChecklistItem("c1", "Verify HS Code classification", true),
    ChecklistItem("c2", "Confirm duty rate calculation", true),
    ChecklistItem("c3", "Check importer bond status", true),
    ChecklistItem("c4", "Validate entry data", true)]

  const DummyJobs: seq<Job> := [
    Job("JOB-2024-001", None, "TechCorp Industries", "Los Angeles", DocsPending, "2024-01-28",
        "Missing Commercial Invoice", true, "MSKU1234567", "MAEU123456789",
        "Shanghai, China", "Los Angeles, CA", 12450, 85000,
        [Doc("d1", "Bill of Lading", Uploaded, Customer, "2024-01-25"),
         Doc("d2", "Commercial Invoice", Missing, Customer, ""),
         Doc("d3", "Packing List", Uploaded, Customer, "2024-01-25"),
         Doc("d4", "Certificate of Origin", Missing, Customer, "")],
        [ChecklistItem("c1", "Verify HS Code classification", false),
         ChecklistItem("c2", "Confirm duty rate calculation", false),
         ChecklistItem("c3", "Check importer bond status", true),
         ChecklistItem("c4", "Validate entry data", false)]),
    Job("JOB-2024-002", None, "Global Trade Co.", "New York", VerificationPending, "2024-01-29",
        "Document Verification Required", true, "CMAU7654321", "COSU987654321",
        "Hamburg, Germany", "Newark, NJ", 8750, 62000,
        [Doc("d1", "Bill of Lading", Uploaded, Customer, "2024-01-24"),
         Doc("d2", "Commercial Invoice", Uploaded, Customer, "2024-01-24"),
         Doc("d3", "Packing List", Uploaded, Customer, "2024-01-24"),
         Doc("d4", "EUR.1 Certificate", Rejected, Customer, "2024-01-24")],
        [ChecklistItem("c1", "Verify HS Code classification", true),
         ChecklistItem("c2", "Confirm duty rate calculation", true),
         ChecklistItem("c3", "Check importer bond status", true),
         ChecklistItem("c4", "Validate entry data", false)]),
    Job("JOB-2024-003", None, "Pacific Imports LLC", "Seattle", CustomsSubmitted, "2024-01-27",
        "Awaiting CBP Response", false, "OOLU9876543", "ONEY456789123",
        "Busan, South Korea", "Seattle, WA", 5200, 38000,
        [Doc("d1", "Bill of Lading", Uploaded, Customer, "2024-01-22"),
         Doc("d2", "Commercial Invoice", Uploaded, Customer, "2024-01-22"),
         Doc("d3", "Packing List", Uploaded, Customer, "2024-01-22"),
         Doc("d4", "FDA Prior Notice", Uploaded, Ops, "2024-01-23")],
        FullChecklist),
    Job("JOB-2024-004", None, "Atlantic Distributors", "Miami", ApprovalPending, "2024-01-30",
        "Customer Approval Required", true, "HAPG5432109", "HLCU321654987",
        "Santos, Brazil", "Miami, FL", 15800, 95000,
        [Doc("d1", "Bill of Lading", Uploaded, Customer, "2024-01-26"),
         Doc("d2", "Commercial Invoice", Uploaded, Customer, "2024-01-26"),
         Doc("d3", "Packing List", Uploaded, Customer, "2024-01-26"),
         Doc("d4", "Phytosanitary Certificate", Uploaded, Customer, "2024-01-26")],
        FullChecklist),
    Job("JOB-2024-005", None, "Midwest Manufacturing", "Chicago", Cleared, "2024-01-26",
        "Schedule Delivery", true, "YMLU1357924", "YMLM789123456",
        "Rotterdam, Netherlands", "Chicago, IL", 9300, 72000,
        [Doc("d1", "Bill of Lading", Uploaded, Customer, "2024-01-20"),
         Doc("d2", "Commercial Invoice", Uploaded, Customer, "2024-01-20"),
         Doc("d3", "Packing List", Uploaded, Customer, "2024-01-20"),
         Doc("d4", "Customs Entry", Uploaded, Ops, "2024-01-24")],
        FullChecklist),
    Job("JOB-2024-006", None, "West Coast Electronics", "Long Beach", PreAlert, "2024-02-02",
        "Create Job", true, "EGLV2468135", "EISU159357486",
        "Shenzhen, China", "Long Beach, CA", 0, 125000,
        [], []),
    Job("JOB-2024-007", None, "Southern Imports Inc.", "Houston", Delivered, "2024-01-22",
        "Generate Invoice", false, "MSCU8024679", "MEDU753951852",
        "Cartagena, Colombia", "Houston, TX", 6800, 48000,
        [Doc("d1", "Bill of Lading", Uploaded, Customer, "2024-01-15"),
         Doc("d2", "Commercial Invoice", Uploaded, Customer, "2024-01-15"),
         Doc("d3", "Packing List", Uploaded, Customer, "2024-01-15"),
         Doc("d4", "POD", Uploaded, Ops, "2024-01-22")],
        FullChecklist),
    Job("JOB-2024-008", None, "Northern Logistics", "Boston", Created, "2024-02-01",
        "Request Documents", true, "CSNU3692581", "COAU852369147",
        "Liverpool, UK", "Boston, MA", 0, 55000,
        [Doc("d1", "Bill of Lading", Uploaded, Customer, "2024-01-27")],
        [])]

  /** Fixture JOB-2024-002 is verification-pending and so sits on step 2 (Verification). */
  lemma SecondFixtureOnVerificationStep()
    ensures DummyJobs[1].id == "JOB-2024-002"
    ensures DummyJobs[1].status == VerificationPending
    ensures StepIndex(StatusName(DummyJobs[1].status)) == 2
    ensures TimelineSteps[2] == "Verification"
  {
  }
}
