/** The job page: the job is looked up by the id in the route, and the page
    derives its current timeline step, whether documents are missing, the
    status badge and which optional sections to show. */
module JobDetail {
  import opened Common
  import opened JobModel
  import DummyData
  import StatusTimeline

  /** Position of the first job with the given id, as `find` scans. */
  function FindIndex(jobs: seq<Job>, id: string): (k: Option<nat>)
    ensures k.None? ==> forall m :: 0 <= m < |jobs| ==> jobs[m].id != id
    ensures k.Some? ==> k.value < |jobs| && jobs[k.value].id == id
    ensures k.Some? ==> forall m :: 0 <= m < k.value ==> jobs[m].id != id
  {
    if jobs == [] then None
    else if jobs[0].id == id then Some(0)
    else match FindIndex(jobs[1..], id)
      case None => None
      case Some(k) => Some(k + 1)
  }

  /** `jobs.some(d => d.status === 'missing')` over the documents. */
  predicate HasMissingDocs(docs: seq<Document>)
  {
    exists d :: d in docs && d.status == Missing
  }

  /** The badge class chosen by the nested conditional of the header. */
  function BadgeClass(s: JobStatus): string
  {
    if s == Cleared || s == Delivered then "status-cleared"
    else if s == CustomsSubmitted then "status-submitted"
    else "status-pending"
  }

  lemma BadgeClassTable(s: JobStatus)
    ensures BadgeClass(s) == "status-cleared" <==> s in {Cleared, Delivered}
    ensures BadgeClass(s) == "status-submitted" <==> s == CustomsSubmitted
    ensures BadgeClass(s) == "status-pending" <==> s in {PreAlert, Created, DocsPending, VerificationPending, ApprovalPending}
  {
  }

  datatype DetailView =
    | NotFound
    | Detail(
        job: Job,
        currentStep: nat,
        timeline: seq<StatusTimeline.StepView>,
        badgeClass: string,
        badgeText: string,
        showMissingDocuments: bool,
        showChecklist: bool)

  /** The page for route parameter `jobId` over the job list. */
  function Render(jobs: seq<Job>, jobId: string): (v: DetailView)
    ensures v.NotFound? <==> forall m :: 0 <= m < |jobs| ==> jobs[m].id != jobId
    ensures v.Detail? ==> exists k :: 0 <= k < |jobs| && jobs[k] == v.job && jobs[k].id == jobId &&
                                      forall m :: 0 <= m < k ==> jobs[m].id != jobId
    ensures v.Detail? ==> v.currentStep == DummyData.StepIndex(StatusName(v.job.status))
    ensures v.Detail? ==> v.timeline == StatusTimeline.Timeline(v.currentStep)
    ensures v.Detail? ==> v.badgeClass == BadgeClass(v.job.status)
    ensures v.Detail? ==> v.badgeText == DummyData.StatusLabel(v.job.status)
    ensures v.Detail? ==> (v.showMissingDocuments <==> exists d :: d in v.job.documents && d.status == Missing)
    ensures v.Detail? ==> (v.showChecklist <==> |v.job.checklistItems| > 0)
  {
    match FindIndex(jobs, jobId)
    case None => NotFound
    case Some(k) =>
      var job := jobs[k];
      var step := DummyData.StepIndex(StatusName(job.status));
      Detail(job, step, StatusTimeline.Timeline(step), BadgeClass(job.status),
             DummyData.StatusLabel(job.status), HasMissingDocs(job.documents),
             |job.checklistItems| > 0)
  }

  /** The page for JOB-2024-002 shows the Verification step as current and
      no missing-documents panel (its one bad document is rejected, not missing). */
  lemma SecondFixturePage()
    ensures Render(DummyData.DummyJobs, "JOB-2024-002").Detail?
    ensures Render(DummyData.DummyJobs, "JOB-2024-002").currentStep == 2
    ensures !Render(DummyData.DummyJobs, "JOB-2024-002").showMissingDocuments
    ensures Render(DummyData.DummyJobs, "JOB-2024-002").badgeClass == "status-pending"
  {
    SecondFixtureFound();
    SecondFixtureHasNoMissingDocs();
    DummyData.SecondFixtureOnVerificationStep();
    PendingPageWithoutMissing(DummyData.DummyJobs, "JOB-2024-002", 1);
  }

  /** The page of a found verification-pending job with no missing document. */
  lemma PendingPageWithoutMissing(jobs: seq<Job>, jobId: string, k: nat)
    requires FindIndex(jobs, jobId) == Some(k)
    requires k < |jobs| && jobs[k].status == VerificationPending && !HasMissingDocs(jobs[k].documents)
    ensures Render(jobs, jobId).Detail? && Render(jobs, jobId).currentStep == 2
    ensures !Render(jobs, jobId).showMissingDocuments
    ensures Render(jobs, jobId).badgeClass == "status-pending"
  {
  }

  lemma SecondFixtureFound()
    ensures FindIndex(DummyData.DummyJobs, "JOB-2024-002") == Some(1)
  {
    var jobs := DummyData.DummyJobs;
    assert jobs[0].id != "JOB-2024-002";
  }

  lemma SecondFixtureHasNoMissingDocs()
    ensures !HasMissingDocs(DummyData.DummyJobs[1].documents)
  {
    var docs := DummyData.DummyJobs[1].documents;
    forall d | d in docs ensures d.status != Missing {
    }
  }

  /** The first fixture has missing documents, so its page shows the panel. */
  lemma FirstFixtureShowsMissingDocuments()
    ensures Render(DummyData.DummyJobs, "JOB-2024-001").showMissingDocuments
  {
    var docs := DummyData.DummyJobs[0].documents;
    assert docs[1] in docs && docs[1].status == Missing;
  }
}
