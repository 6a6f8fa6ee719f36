/** Shared display tables of the frontend: the label of each status, the
    eleven timeline steps and the index of the step a status sits on. */
module Constants {
  import opened Common
  import opened JobModel

  function StatusLabel(s: JobStatus): string
  {
    match s
    case PreAlert => "Pre-Alert Received"
    case Created => "Job Created"
    case DocsPending => "Documents Pending"
    case VerificationPending => "Verification Pending"
    case ApprovalPending => "Approval Pending"
    case CustomsSubmitted => "Customs Submitted"
    case Cleared => "Cleared"
    case Delivered => "Delivered"
  }

  /** No two statuses share a label. */
  lemma StatusLabelsDistinct(s: JobStatus, t: JobStatus)
    ensures StatusLabel(s) == StatusLabel(t) ==> s == t
  {
    if s != t {
      assert StatusLabel(s)[0] != StatusLabel(t)[0] || |StatusLabel(s)| != |StatusLabel(t)|;
    }
  }

  const TimelineSteps: seq<string> :=
    ["Pre-Alert", "Docs", "Verification", "Entry", "Checklist", "Approval",
     "Customs", "Clearance", "Delivery", "Billing", "Closed"]

  /** The `switch` over the status string; any other string falls to the default 0. */
  function StepIndex(status: string): (i: nat)
    ensures i < |TimelineSteps|
  {
    if status == "pre-alert" then 0
    else if status == "created" then 1
    else if status == "docs-pending" then 1
    else if status == "verification-pending" then 2
    else if status == "approval-pending" then 5
    else if status == "customs-submitted" then 6
    else if status == "cleared" then 7
    else if status == "delivered" then 8
    else 0
  }

  /** The step of each status, as a table indexed by declaration order. */
  lemma StepIndexTable()
    ensures seq(8, k requires 0 <= k < 8 => StepIndex(StatusName(AllStatuses[k]))) == [0, 1, 1, 2, 5, 6, 7, 8]
  {
  }

  /** Later statuses never sit on an earlier step. */
  lemma StepIndexMonotone(s: JobStatus, t: JobStatus)
    requires Rank(s) <= Rank(t)
    ensures StepIndex(StatusName(s)) <= StepIndex(StatusName(t))
  {
  }

  /** `created` and `docs-pending` share step 1 (Docs). */
  lemma CreatedAndDocsPendingShareStep()
    ensures StepIndex(StatusName(Created)) == StepIndex(StatusName(DocsPending)) == 1
  {
  }

  /** Entry, Checklist, Billing and Closed are never the step of any string. */
  lemma UnreachableSteps(status: string)
    ensures StepIndex(status) != 3 && StepIndex(status) != 4
    ensures StepIndex(status) != 9 && StepIndex(status) != 10
  {
  }

  /** A string outside the status type lands on step 0. */
  lemma OutOfDomainIsZero(status: string)
    requires ParseStatus(status) == None
    ensures StepIndex(status) == 0
  {
  }
}
