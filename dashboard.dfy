/** The dashboard: eight status cards, in lifecycle order, that toggle a
    status filter over the sample jobs, and the heading above the table. */
module Dashboard {
  import opened Common
  import opened Seqs
  import opened JobModel
  import Constants
  import DummyData

  const StatusCards: seq<JobStatus> :=
    [PreAlert, Created, DocsPending, VerificationPending, ApprovalPending, CustomsSubmitted, Cleared, Delivered]

  /** The cards show every status exactly once, in declaration (lifecycle) order. */
  lemma StatusCardsEachOnce(s: JobStatus)
    ensures StatusCards == AllStatuses
    ensures multiset(StatusCards)[s] == 1
  {
  }

  /** The dashboard's own copy of the label table. */
  function CardLabel(s: JobStatus): string
  {
    match s
    case PreAlert => "Pre-Alert Received"
    case Created => "Job Created"
    case DocsPending => "Documents Pending"
    case VerificationPending => "Verification Pending"
    case ApprovalPending => "Approval Pending"
    case CustomsSubmitted => "Customs Submitted"
    case Cleared => "Cleared"
    case Delivered => "Delivered"
  }

  lemma CardLabelAgrees(s: JobStatus)
    ensures CardLabel(s) == Constants.StatusLabel(s)
  {
  }

  /** The new filter after a click on the card for `s`. */
  function Toggle(filter: Option<JobStatus>, s: JobStatus): (r: Option<JobStatus>)
    ensures r == None <==> filter == Some(s)
    ensures r != None ==> r == Some(s)
  {
    if filter == Some(s) then None else Some(s)
  }

  /** Two clicks on the same card give back the filter exactly when it was
      unset or already that card; from another card the second click clears it. */
  lemma ToggleTwice(filter: Option<JobStatus>, s: JobStatus)
    ensures Toggle(Toggle(filter, s), s) == filter <==> filter == None || filter == Some(s)
    ensures filter != None && filter != Some(s) ==> Toggle(Toggle(filter, s), s) == None
  {
  }

  predicate HasStatus(s: JobStatus, job: Job) { job.status == s }

  function FilterJobs(jobs: seq<Job>, filter: Option<JobStatus>): seq<Job>
  {
    match filter
    case None => jobs
    case Some(s) => Filter(jobs, j => HasStatus(s, j))
  }

  /** With no filter every job is shown; with a filter exactly the jobs of that
      status are shown, in their original order. */
  lemma FilterJobsSpec(jobs: seq<Job>, filter: Option<JobStatus>, job: Job)
    ensures filter.None? ==> FilterJobs(jobs, filter) == jobs
    ensures filter.Some? ==> (job in FilterJobs(jobs, filter) <==> job in jobs && job.status == filter.value)
    ensures IsSubsequence(FilterJobs(jobs, filter), jobs)
  {
    match filter
    case None =>
      FilterAllPass(jobs, (j: Job) => true);
      assert Filter(jobs, (j: Job) => true) == jobs;
      FilterIsSubsequence(jobs, (j: Job) => true);
    case Some(s) =>
      FilterMembership(jobs, j => HasStatus(s, j), job);
      FilterIsSubsequence(jobs, j => HasStatus(s, j));
  }

  function Heading(filter: Option<JobStatus>): (h: string)
    ensures filter.None? ==> h == "Recent Jobs"
    ensures filter.Some? ==> h == CardLabel(filter.value) + " Jobs"
  {
    match filter
    case None => "Recent Jobs"
    case Some(s) => CardLabel(s) + " Jobs"
  }

  datatype Card = Card(status: JobStatus, title: string, count: nat, isActive: bool)

  function Cards(filter: Option<JobStatus>): (cs: seq<Card>)
    ensures |cs| == 8
    ensures forall i :: 0 <= i < 8 ==> cs[i].status == StatusCards[i] && cs[i].count == DummyData.StatusCount(StatusCards[i])
    ensures forall i :: 0 <= i < 8 ==> cs[i].title == CardLabel(StatusCards[i])
    ensures forall i, j :: 0 <= i < j < 8 && cs[i].isActive ==> !cs[j].isActive
    ensures forall i :: 0 <= i < 8 ==> (cs[i].isActive <==> filter == Some(StatusCards[i]))
  {
    seq(8, i requires 0 <= i < 8 =>
      Card(StatusCards[i], CardLabel(StatusCards[i]), DummyData.StatusCount(StatusCards[i]), filter == Some(StatusCards[i])))
  }

  /** The page state: the status filter a card click sets or clears. */
  class DashboardPage {
    var activeFilter: Option<JobStatus>

    constructor ()
      ensures activeFilter == None
    {
      activeFilter := None;
    }

    method HandleCardClick(s: JobStatus)
      modifies this
      ensures activeFilter == Toggle(old(activeFilter), s)
    {
      activeFilter := if activeFilter == Some(s) then None else Some(s);
    }

    /** The "Clear filter" link. */
    method ClearFilter()
      modifies this
      ensures activeFilter == None
    {
      activeFilter := None;
    }

    function FilteredJobs(): seq<Job>
      reads this
    {
      FilterJobs(DummyData.DummyJobs, activeFilter)
    }

    /** The "Clear filter" link is shown only while a filter is set. */
    predicate ShowsClearFilter()
      reads this
    {
      activeFilter.Some?
    }
  }

  /** Starting from a fresh page, clicking a card twice shows all jobs again. */
  method TwoClicksRestoreAllJobs(s: JobStatus) returns (shown: seq<Job>)
    ensures shown == DummyData.DummyJobs
  {
    var page := new DashboardPage();
    page.HandleCardClick(s);
    page.HandleCardClick(s);
    shown := page.FilteredJobs();
  }
}
