/** The routes of a job's document records (`/documents`): the list filter, the
    update builder and the creation's error mapping. */
module DocumentRoutes {
  import opened Common
  import opened Strings
  import opened Sql

  // ---- GET /documents ----

  function ListCandidate(jobId: Option<int>, docType: Option<string>, k: nat): Candidate<Condition>
  {
    if k == 0 then Candidate(TruthyInt(jobId), Condition("d.job_id", IntOrNull(jobId)))
    else Candidate(TruthyStr(docType), Condition("d.doc_type", TextOrNull(docType)))
  }

  /** The filters in the order the route tests them: job, then type, each when truthy. */
  function ListCandidates(jobId: Option<int>, docType: Option<string>): nat -> Candidate<Condition>
  {
    (k: nat) => ListCandidate(jobId, docType, k)
  }

  /** The list query: a condition per truthy filter, newest upload first. */
  method ListDocuments(jobId: Option<int>, docType: Option<string>) returns (st: Statement)
    ensures st == SelectStatement("documents d", Collected(ListCandidates(jobId, docType), 2), "d.uploaded_at DESC", None)
    ensures WellFormed(st)
  {
    var conds: seq<Condition> := [];
    if TruthyInt(jobId) {
      conds := conds + [Condition("d.job_id", Int(jobId.value))];
    }
    assert conds == Collected(ListCandidates(jobId, docType), 1);
    if TruthyStr(docType) {
      conds := conds + [Condition("d.doc_type", Text(docType.value))];
    }
    assert conds == Collected(ListCandidates(jobId, docType), 2);
    st := SelectStatement("documents d", conds, "d.uploaded_at DESC", None);
    ListWellFormed(jobId, docType);
  }

  lemma ListWellFormed(jobId: Option<int>, docType: Option<string>)
    ensures WellFormed(SelectStatement("documents d", Collected(ListCandidates(jobId, docType), 2), "d.uploaded_at DESC", None))
  {
    PlainName("d.job_id");
    PlainName("d.doc_type");
    FilterWellFormed("documents d", ListCandidates(jobId, docType), 2, "d.uploaded_at DESC", None);
  }

  /** The bound values follow the conditions: the job before the type, each exactly
      when it is truthy. */
  lemma ListParams(jobId: Option<int>, docType: Option<string>)
    ensures SelectStatement("documents d", Collected(ListCandidates(jobId, docType), 2), "d.uploaded_at DESC", None).params ==
      (if TruthyInt(jobId) then [Int(jobId.value)] else []) + (if TruthyStr(docType) then [Text(docType.value)] else [])
  {
    var cand := ListCandidates(jobId, docType);
    var conds := Collected(cand, 2);
    assert Collected(cand, 1) == (if TruthyInt(jobId) then [Condition("d.job_id", Int(jobId.value))] else []);
    assert conds == Collected(cand, 1) + (if TruthyStr(docType) then [Condition("d.doc_type", Text(docType.value))] else []);
    var ps := ConditionValues(conds);
    var expected := (if TruthyInt(jobId) then [Int(jobId.value)] else []) + (if TruthyStr(docType) then [Text(docType.value)] else []);
    assert |ps| == |expected|;
    forall k | 0 <= k < |ps|
      ensures ps[k] == expected[k]
    {
    }
  }

  // ---- PUT /documents/{document_id} ----

  /** The request body of an update. */
  datatype DocumentUpdate = DocumentUpdate(docType: Option<string>, fileUrl: Option<string>)

  function UpdateCandidate(d: DocumentUpdate, k: nat): Candidate<Change>
  {
    if k == 0 then Candidate(TruthyStr(d.docType), Set("doc_type", TextOrNull(d.docType)))
    else Candidate(TruthyStr(d.fileUrl), Set("file_url", TextOrNull(d.fileUrl)))
  }

  /** The update's fields in the order the route tests them, each when truthy. */
  function UpdateCandidates(d: DocumentUpdate): nat -> Candidate<Change>
  {
    (k: nat) => UpdateCandidate(d, k)
  }

  /** The SET list of an update. */
  method DocumentChanges(d: DocumentUpdate) returns (updates: seq<Change>)
    ensures updates == Collected(UpdateCandidates(d), 2)
  {
    updates := [];
    if TruthyStr(d.docType) { updates := updates + [Set("doc_type", Text(d.docType.value))]; }
    assert updates == Collected(UpdateCandidates(d), 1);
    if TruthyStr(d.fileUrl) { updates := updates + [Set("file_url", Text(d.fileUrl.value))]; }
  }

  /** The update: 400 before any SQL when both fields are falsy, otherwise one
      placeholder per parameter with the document id bound last. */
  method UpdateDocument(documentId: int, d: DocumentUpdate, ran: Outcome<()>) returns (sent: Option<Statement>, r: Result<string>)
    ensures var updates := Collected(UpdateCandidates(d), 2);
      if updates == [] then sent == None && r == Failure(NoFieldsToUpdate)
      else sent == Some(UpdateStatement("documents", updates, Int(documentId))) &&
           r == Reply(ran, "Document " + IntToString(documentId) + " not found", "Failed to update document: ", "Document updated")
    ensures sent.Some? ==> WellFormed(sent.value) && sent.value.params[|sent.value.params| - 1] == Int(documentId)
  {
    var updates := DocumentChanges(d);
    ColumnsSafe(d);
    PlainName("documents");
    sent, r := SendUpdate("documents", updates, Int(documentId),
      Reply(ran, "Document " + IntToString(documentId) + " not found", "Failed to update document: ", "Document updated"));
  }

  lemma ColumnsSafe(d: DocumentUpdate)
    ensures SafeColumns(Collected(UpdateCandidates(d), 2))
  {
    PlainName("doc_type");
    PlainName("file_url");
    CollectedSafe(UpdateCandidates(d), 2);
  }

  /** The 400 answer comes exactly when both fields are falsy: an empty type or URL
      never clears the column. */
  lemma NothingToUpdate(d: DocumentUpdate)
    ensures Collected(UpdateCandidates(d), 2) == [] <==> !TruthyStr(d.docType) && !TruthyStr(d.fileUrl)
  {
    var cand := UpdateCandidates(d);
    CollectedEmpty(cand, 2);
    assert cand(0).present == TruthyStr(d.docType);
    assert cand(1).present == TruthyStr(d.fileUrl);
  }

  // ---- POST /documents ----

  const UnknownJobOrUser := "Job or User not found"

  /** The reply of the creation: a foreign-key violation, on the job or on the
      uploader, is answered with 400. */
  function CreateDocument(ran: Inserted): (r: Result<int>)
    ensures r.Success? <==> ran.Inserted?
    ensures ran.Rejected? && ForeignKeyViolation(ran.message) ==> r == Failure(HttpError(400, UnknownJobOrUser))
    ensures ran.Rejected? && !ForeignKeyViolation(ran.message) ==>
      r == Failure(HttpError(500, "Failed to create document: " + ran.message))
  {
    Created(ran, None, Some(UnknownJobOrUser), "Failed to create document: ")
  }
}
