/** The jobs table of the dashboard: one row per job with an id cell, a status
    badge and a warning icon, rows highlighted when the job needs action and
    the table asks for it, or a single placeholder row when there are no jobs. */
module JobsTable {
  import opened Common
  import opened JobModel
  import Constants

  function StatusStyle(s: JobStatus): string
  {
    match s
    case PreAlert => "status-prealert"
    case Created => "status-created"
    case DocsPending => "status-pending"
    case VerificationPending => "status-pending"
    case ApprovalPending => "status-pending"
    case CustomsSubmitted => "status-submitted"
    case Cleared => "status-cleared"
    case Delivered => "status-delivered"
  }

  /** The three in-progress statuses share one style; every other status has its own. */
  lemma StatusStyleSharing(s: JobStatus, t: JobStatus)
    ensures StatusStyle(s) == "status-pending" <==> s in {DocsPending, VerificationPending, ApprovalPending}
    ensures s != t && StatusStyle(s) == StatusStyle(t) ==> StatusStyle(s) == "status-pending"
  {
  }

  datatype Row = Row(
    jobId: string,
    idCell: string,
    highlighted: bool,
    badgeClass: string,
    badgeText: string,
    warningIcon: bool,
    pendingAction: string)

  datatype Body = NoJobsFound | Rows(rows: seq<Row>)

  /** `job.jobNumber || job.id`. */
  function IdCell(job: Job): string
  {
    if TruthyStr(job.jobNumber) then job.jobNumber.value else job.id
  }

  function RenderRow(job: Job, showNeedsAction: bool): Row
  {
    Row(job.id, IdCell(job), showNeedsAction && job.needsAction, StatusStyle(job.status),
        Constants.StatusLabel(job.status), job.needsAction, job.pendingAction)
  }

  /** The table body; `showNeedsAction` is the optional prop, true when absent. */
  function Render(jobs: seq<Job>, showNeedsAction: Option<bool>): (b: Body)
    ensures b.NoJobsFound? <==> jobs == []
    ensures b.Rows? ==> |b.rows| == |jobs|
    ensures b.Rows? ==> forall i :: 0 <= i < |jobs| ==>
      b.rows[i].jobId == jobs[i].id &&
      (b.rows[i].highlighted <==> showNeedsAction != Some(false) && jobs[i].needsAction) &&
      (b.rows[i].warningIcon <==> jobs[i].needsAction) &&
      b.rows[i].idCell == (if jobs[i].jobNumber.Some? && jobs[i].jobNumber.value != "" then jobs[i].jobNumber.value else jobs[i].id) &&
      b.rows[i].badgeClass == StatusStyle(jobs[i].status) &&
      b.rows[i].pendingAction == jobs[i].pendingAction &&
      b.rows[i].badgeText == Constants.StatusLabel(jobs[i].status)
  {
    if |jobs| == 0 then NoJobsFound
    else
      var show := showNeedsAction.GetOr(true);
      Rows(seq(|jobs|, i requires 0 <= i < |jobs| => RenderRow(jobs[i], show)))
  }
}
