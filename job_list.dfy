/** The job list: a text search over id, importer and port combined with a
    status selector whose options are "all" and every entry of the label table. */
module JobList {
  import opened Strings
  import opened Seqs
  import opened JobModel
  import DummyData

  predicate MatchesSearch(job: Job, query: string)
  {
    IncludesIgnoringCase(job.id, query) || IncludesIgnoringCase(job.importer, query)
      || IncludesIgnoringCase(job.port, query)
  }

  /** `statusFilter` is the selector's string value: "all" or a status spelling. */
  predicate MatchesStatus(job: Job, statusFilter: string)
  {
    statusFilter == "all" || StatusName(job.status) == statusFilter
  }

  predicate Keep(query: string, statusFilter: string, job: Job)
  {
    MatchesSearch(job, query) && MatchesStatus(job, statusFilter)
  }

  function FilterJobs(jobs: seq<Job>, query: string, statusFilter: string): seq<Job>
  {
    Filter(jobs, j => Keep(query, statusFilter, j))
  }

  /** A job is listed exactly when it matches the search and the status; the
      list keeps the original order, so it never shows more than the total. */
  lemma FilterJobsSpec(jobs: seq<Job>, query: string, statusFilter: string, job: Job)
    ensures job in FilterJobs(jobs, query, statusFilter) <==>
      job in jobs &&
      (Contains(Lower(job.id), Lower(query)) || Contains(Lower(job.importer), Lower(query)) || Contains(Lower(job.port), Lower(query))) &&
      (statusFilter == "all" || StatusName(job.status) == statusFilter)
    ensures IsSubsequence(FilterJobs(jobs, query, statusFilter), jobs)
    ensures |FilterJobs(jobs, query, statusFilter)| <= |jobs|
  {
    FilterMembership(jobs, j => Keep(query, statusFilter, j), job);
    FilterIsSubsequence(jobs, j => Keep(query, statusFilter, j));
  }

  /** The initial state (empty query, "all") lists every job. */
  lemma EmptyQueryAllStatusesKeepsAll(jobs: seq<Job>)
    ensures FilterJobs(jobs, "", "all") == jobs
  {
    forall i | 0 <= i < |jobs| ensures Keep("", "all", jobs[i]) {
      EmptyQueryMatchesAll(jobs[i].id);
    }
    FilterAllPass(jobs, j => Keep("", "all", j));
  }

  datatype SelectOption = SelectOption(value: string, text: string)

  /** "All Statuses" followed by the label table's entries in key order. */
  function StatusOptions(): (opts: seq<SelectOption>)
    ensures |opts| == 1 + |AllStatuses|
    ensures opts[0] == SelectOption("all", "All Statuses")
    ensures forall i :: 0 <= i < |AllStatuses| ==>
      opts[i + 1] == SelectOption(StatusName(AllStatuses[i]), DummyData.StatusLabel(AllStatuses[i]))
  {
    [SelectOption("all", "All Statuses")] +
    seq(|AllStatuses|, i requires 0 <= i < |AllStatuses| =>
      SelectOption(StatusName(AllStatuses[i]), DummyData.StatusLabel(AllStatuses[i])))
  }

  /** Every option value is "all" or names a status, and every status is offered. */
  lemma StatusOptionsCover(s: JobStatus)
    ensures SelectOption(StatusName(s), DummyData.StatusLabel(s)) in StatusOptions()
    ensures forall o :: o in StatusOptions() ==> o.value == "all" || ParseStatus(o.value).Some?
  {
    var opts := StatusOptions();
    assert opts[Rank(s) + 1] == SelectOption(StatusName(s), DummyData.StatusLabel(s));
    forall o | o in opts ensures o.value == "all" || ParseStatus(o.value).Some? {
      var i :| 0 <= i < |opts| && opts[i] == o;
      if i > 0 {
        ParseStatusName(AllStatuses[i - 1]);
      }
    }
  }

  /** The page state: the search box and the status selector. */
  class JobListPage {
    var searchQuery: string
    var statusFilter: string

    constructor ()
      ensures searchQuery == "" && statusFilter == "all"
    {
      searchQuery := "";
      statusFilter := "all";
    }

    method SetSearchQuery(q: string)
      modifies this
      ensures searchQuery == q && statusFilter == old(statusFilter)
    {
      searchQuery := q;
    }

    /** The selector only offers the values of `StatusOptions`. */
    method SetStatusFilter(v: string)
      requires exists o :: o in StatusOptions() && o.value == v
      modifies this
      ensures statusFilter == v && searchQuery == old(searchQuery)
    {
      statusFilter := v;
    }

    function FilteredJobs(): seq<Job>
      reads this
    {
      FilterJobs(DummyData.DummyJobs, searchQuery, statusFilter)
    }

    /** "Showing N of M jobs". */
    function ResultCount(): (counts: (nat, nat))
      reads this
      ensures counts.0 == |FilteredJobs()| && counts.1 == |DummyData.DummyJobs|
      ensures counts.0 <= counts.1
    {
      FilterJobsSpec(DummyData.DummyJobs, searchQuery, statusFilter, DummyData.DummyJobs[0]);
      (|FilteredJobs()|, |DummyData.DummyJobs|)
    }
  }
}
