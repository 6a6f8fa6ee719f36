/** The documents page: eight sample documents, a search over name and job,
    the status badge table and the "Uploaded" column. */
module Documents {
  import opened Common
  import opened Strings
  import opened Seqs
  import opened JobModel

  /** A row of the page's own document table (`job` is the job id it belongs to). */
  datatype DocRow = DocRow(id: string, name: string, job: string, status: DocumentStatus, kind: string, uploadedAt: Option<string>)

  const AllDocuments: seq<DocRow> := [
    DocRow("d1", "Bill of Lading", "JOB-2024-001", Uploaded, "BOL", Some("2024-01-25")),
    DocRow("d2", "Commercial Invoice", "JOB-2024-001", Missing, "Invoice", None),
    DocRow("d3", "Packing List", "JOB-2024-001", Uploaded, "Packing", Some("2024-01-25")),
    DocRow("d4", "Certificate of Origin", "JOB-2024-002", Rejected, "Certificate", Some("2024-01-24")),
    DocRow("d5", "Bill of Lading", "JOB-2024-003", Uploaded, "BOL", Some("2024-01-22")),
    DocRow("d6", "FDA Prior Notice", "JOB-2024-003", Uploaded, "Certificate", Some("2024-01-23")),
    DocRow("d7", "Commercial Invoice", "JOB-2024-004", Uploaded, "Invoice", Some("2024-01-26")),
    DocRow("d8", "Phytosanitary Certificate", "JOB-2024-004", Uploaded, "Certificate", Some("2024-01-26"))]

  predicate MatchesSearch(query: string, doc: DocRow)
  {
    IncludesIgnoringCase(doc.name, query) || IncludesIgnoringCase(doc.job, query)
  }

  function FilterDocs(docs: seq<DocRow>, query: string): seq<DocRow>
  {
    Filter(docs, d => MatchesSearch(query, d))
  }

  /** A document is listed exactly when the query occurs, ignoring case, in its name or its job id. */
  lemma FilterDocsSpec(docs: seq<DocRow>, query: string, doc: DocRow)
    ensures doc in FilterDocs(docs, query) <==>
      doc in docs && (Contains(Lower(doc.name), Lower(query)) || Contains(Lower(doc.job), Lower(query)))
    ensures IsSubsequence(FilterDocs(docs, query), docs)
  {
    FilterMembership(docs, d => MatchesSearch(query, d), doc);
    FilterIsSubsequence(docs, d => MatchesSearch(query, d));
  }

  /** The empty search shows all eight documents, in order. */
  lemma EmptyQueryShowsAll()
    ensures FilterDocs(AllDocuments, "") == AllDocuments
    ensures |AllDocuments| == 8
  {
    forall i | 0 <= i < |AllDocuments| ensures MatchesSearch("", AllDocuments[i]) {
      EmptyQueryMatchesAll(AllDocuments[i].name);
    }
    FilterAllPass(AllDocuments, d => MatchesSearch("", d));
  }

  datatype Badge = Badge(text: string, cssClass: string)

  function StatusConfig(s: DocumentStatus): Badge
  {
    match s
    case Uploaded => Badge("Uploaded", "status-cleared")
    case Missing => Badge("Missing", "status-missing")
    case Rejected => Badge("Rejected", "status-rejected")
  }

  /** The badge texts are distinct, so the badge tells the status. */
  lemma StatusConfigDistinct(s: DocumentStatus, t: DocumentStatus)
    ensures StatusConfig(s).text == StatusConfig(t).text ==> s == t
  {
  }

  datatype UploadedCell = ShowDate(raw: string) | Dash

  /** `doc.uploadedAt ? date : '-'`. */
  function UploadedColumn(doc: DocRow): (c: UploadedCell)
    ensures c == Dash <==> !TruthyStr(doc.uploadedAt)
    ensures c.ShowDate? ==> c.raw == doc.uploadedAt.value
  {
    if TruthyStr(doc.uploadedAt) then ShowDate(doc.uploadedAt.value) else Dash
  }

  /** On the sample documents the dash appears only for the missing invoice. */
  lemma DashOnlyForMissing(i: nat)
    requires i < |AllDocuments|
    ensures UploadedColumn(AllDocuments[i]) == Dash <==> AllDocuments[i].status == Missing
  {
  }

  class DocumentsPage {
    var searchQuery: string

    constructor ()
      ensures searchQuery == ""
    {
      searchQuery := "";
    }

    method SetSearchQuery(q: string)
      modifies this
      ensures searchQuery == q
    {
      searchQuery := q;
    }

    function FilteredDocs(): seq<DocRow>
      reads this
    {
      FilterDocs(AllDocuments, searchQuery)
    }
  }
}
