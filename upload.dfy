/** The upload routes: document-type and extension validation, the stored file
    name and relative path, the INCOTERM step for packing lists, and the folder
    guard of the download and delete routes. File I/O, the clock and the UUID
    are inputs: `timestamp` and `uniqueId` are what `strftime` and `uuid4` gave,
    `saveError` is the message of a failed write, `removeError` that of a failed
    removal, `fileExists` the filesystem's answer, and `alnum` the Unicode
    alphanumeric test the INCOTERM search's word boundaries rely on. */
module Upload {
  import opened Common
  import opened Strings
  import opened Paths
  import DocumentAi

  /** Document type to subfolder. */
  const DocFolders: map<string, string> :=
    map["bl" := "bl", "packing_list" := "pl", "invoice" := "invoice", "freight" := "freight"]

  const FolderNames: set<string> := {"bl", "pl", "invoice", "freight"}

  const AllowedExtensions: seq<string> :=
    [".pdf", ".jpg", ".jpeg", ".png", ".doc", ".docx", ".xls", ".xlsx", ".tiff", ".tif"]

  const InvalidDocType := "Invalid doc_type. Must be one of: ['bl', 'packing_list', 'invoice', 'freight']"
  const TypeNotAllowed := "File type not allowed. Allowed: .pdf, .jpg, .jpeg, .png, .doc, .docx, .xls, .xlsx, .tiff, .tif"

  /** The folders are exactly the values of the document-type table; only the packing
      list is renamed. */
  lemma FolderTable()
    ensures forall t :: t in DocFolders ==> DocFolders[t] in FolderNames
    ensures forall f :: f in FolderNames ==> exists t :: t in DocFolders && DocFolders[t] == f
    ensures forall t :: t in DocFolders && t != "packing_list" ==> DocFolders[t] == t
    ensures DocFolders["packing_list"] == "pl"
  {
    assert DocFolders["bl"] == "bl" && DocFolders["packing_list"] == "pl";
    assert DocFolders["invoice"] == "invoice" && DocFolders["freight"] == "freight";
  }

  /** `job_no.replace("/", "_").replace("\\", "_")`. */
  function CleanJobNo(jobNo: string): (c: string)
    ensures |c| == |jobNo|
    ensures forall k :: 0 <= k < |c| ==> c[k] != '/' && c[k] != '\\'
    ensures forall k :: 0 <= k < |c| ==> c[k] == (if jobNo[k] == '/' || jobNo[k] == '\\' then '_' else jobNo[k])
  {
    ReplaceChar(ReplaceChar(jobNo, '/', '_'), '\\', '_')
  }

  /** The first part of the stored name: the cleaned job number when one is given, else `fallback`. */
  function NamePrefix(jobNo: Option<string>, fallback: string): string
  {
    if TruthyStr(jobNo) then CleanJobNo(jobNo.value) else fallback
  }

  /** `f"{prefix}_{timestamp}_{unique_id}{file_ext}"`. */
  function StoredName(prefix: string, timestamp: string, uniqueId: string, ext: string): string
  {
    prefix + "_" + timestamp + "_" + uniqueId + ext
  }

  predicate NoSlash(s: string)
  {
    forall k :: 0 <= k < |s| ==> s[k] != '/'
  }

  /** With a slash-free clock stamp, id and fallback, the stored name never holds a slash,
      whatever the job number or the original file name, so the file lands directly in its
      folder; it starts with the prefix and ends with the extension. */
  lemma StoredNameStaysInFolder(jobNo: Option<string>, fallback: string, timestamp: string, uniqueId: string, filename: string)
    requires NoSlash(fallback) && NoSlash(timestamp) && NoSlash(uniqueId)
    ensures NoSlash(StoredName(NamePrefix(jobNo, fallback), timestamp, uniqueId, Lower(Extension(filename))))
    ensures IsPrefix(NamePrefix(jobNo, fallback), StoredName(NamePrefix(jobNo, fallback), timestamp, uniqueId, Lower(Extension(filename))))
  {
    var p := NamePrefix(jobNo, fallback);
    var e := Lower(Extension(filename));
    var n := StoredName(p, timestamp, uniqueId, e);
    assert n == p + ("_" + timestamp + "_" + uniqueId + e);
    assert n[..|p|] == p;
  }

  /** What the text extraction of a packing list gave: its text, or the message of an exception. */
  datatype Extraction = Text(text: string) | Raised(message: string)

  datatype IncotermInfo =
    | Processed(result: DocumentAi.PackingListResult)
    | ExtractionFailed(error: string)

  datatype UploadResponse = UploadResponse(
    filename: string,
    originalFilename: string,
    filePath: string,
    docType: string,
    folder: string,
    message: string,
    incoterm: Option<IncotermInfo>)

  /** `POST /upload`. */
  method UploadFile(filename: string, docType: string, jobNo: Option<string>,
                    timestamp: string, uniqueId: string, saveError: Option<string>,
                    extraction: Extraction, alnum: char -> bool)
    returns (r: Result<UploadResponse>)
    ensures docType !in DocFolders ==> r == Failure(HttpError(400, InvalidDocType))
    ensures docType in DocFolders && Lower(Extension(filename)) !in AllowedExtensions ==>
      r == Failure(HttpError(400, TypeNotAllowed))
    ensures docType in DocFolders && Lower(Extension(filename)) in AllowedExtensions && saveError.Some? ==>
      r == Failure(HttpError(500, "Failed to upload file: " + saveError.value))
    ensures r.Success? <==>
      docType in DocFolders && Lower(Extension(filename)) in AllowedExtensions && saveError.None?
    ensures r.Success? ==>
      var name := StoredName(NamePrefix(jobNo, docType), timestamp, uniqueId, Lower(Extension(filename)));
      && r.value.filename == name
      && r.value.originalFilename == filename
      && r.value.folder == DocFolders[docType]
      && r.value.filePath == "uploads/" + DocFolders[docType] + "/" + name
      && r.value.docType == docType
      && r.value.message == "File uploaded to " + DocFolders[docType] + "/ folder successfully"
    ensures r.Success? ==> (r.value.incoterm.Some? <==> docType == "packing_list")
    ensures r.Success? && docType == "packing_list" && extraction.Text? ==>
      r.value.incoterm == Some(Processed(DocumentAi.PackingListResult(
        |extraction.text| > 0, |extraction.text|, DocumentAi.ResultFor(DocumentAi.DetectTerm(alnum, extraction.text)))))
    ensures r.Success? && docType == "packing_list" && extraction.Raised? ==>
      r.value.incoterm == Some(ExtractionFailed(extraction.message))
  {
    if docType !in DocFolders {
      return Failure(HttpError(400, InvalidDocType));
    }
    var fileExt := Lower(Extension(filename));
    if fileExt !in AllowedExtensions {
      return Failure(HttpError(400, TypeNotAllowed));
    }
    var subfolder := DocFolders[docType];
    var newFilename: string;
    if TruthyStr(jobNo) {
      var cleanJobNo := CleanJobNo(jobNo.value);
      newFilename := cleanJobNo + "_" + timestamp + "_" + uniqueId + fileExt;
    } else {
      newFilename := docType + "_" + timestamp + "_" + uniqueId + fileExt;
    }
    if saveError.Some? {
      return Failure(HttpError(500, "Failed to upload file: " + saveError.value));
    }
    var relativePath := "uploads/" + subfolder + "/" + newFilename;
    var response := UploadResponse(newFilename, filename, relativePath, docType, subfolder,
      "File uploaded to " + subfolder + "/ folder successfully", None);
    if docType == "packing_list" {
      match extraction
      case Text(text) =>
        var incotermResult := DocumentAi.ProcessPackingList(alnum, text);
        response := response.(incoterm := Some(Processed(incotermResult)));
      case Raised(message) =>
        response := response.(incoterm := Some(ExtractionFailed(message)));
    }
    r := Success(response);
  }

  /** The response of the invoice-extraction route; misc charges are present only when asked for. */
  datatype InvoiceResponse = InvoiceResponse(
    filename: string,
    originalFilename: string,
    filePath: string,
    docType: string,
    folder: string,
    miscCharges: Option<real>)

  /** `POST /upload/extract-invoice`. `charges` is what the charge extraction returned,
      None when it raised. */
  method ExtractInvoiceData(filename: string, jobNo: Option<string>, extractMisc: bool,
                            timestamp: string, uniqueId: string, saveError: Option<string>,
                            charges: Option<real>)
    returns (r: Result<InvoiceResponse>)
    ensures Lower(Extension(filename)) !in AllowedExtensions ==> r == Failure(HttpError(400, TypeNotAllowed))
    ensures Lower(Extension(filename)) in AllowedExtensions && saveError.Some? ==>
      r == Failure(HttpError(500, "Failed to upload invoice: " + saveError.value))
    ensures r.Success? <==> Lower(Extension(filename)) in AllowedExtensions && saveError.None?
    ensures r.Success? ==>
      var name := StoredName(NamePrefix(jobNo, "invoice"), timestamp, uniqueId, Lower(Extension(filename)));
      && r.value.filename == name
      && r.value.originalFilename == filename
      && r.value.filePath == "uploads/invoice/" + name
      && r.value.folder == "invoice" && r.value.docType == "invoice"
      && (r.value.miscCharges.Some? <==> extractMisc)
      && (extractMisc ==> r.value.miscCharges == Some(charges.GetOr(0.0)))
  {
    var fileExt := Lower(Extension(filename));
    if fileExt !in AllowedExtensions {
      return Failure(HttpError(400, TypeNotAllowed));
    }
    var newFilename: string;
    if TruthyStr(jobNo) {
      var cleanJobNo := CleanJobNo(jobNo.value);
      newFilename := cleanJobNo + "_" + timestamp + "_" + uniqueId + fileExt;
    } else {
      newFilename := "invoice_" + timestamp + "_" + uniqueId + fileExt;
      assert "invoice_" == "invoice" + "_";
    }
    assert newFilename == StoredName(NamePrefix(jobNo, "invoice"), timestamp, uniqueId, fileExt);
    if saveError.Some? {
      return Failure(HttpError(500, "Failed to upload invoice: " + saveError.value));
    }
    var response := InvoiceResponse(newFilename, filename, "uploads/invoice/" + newFilename, "invoice", "invoice", None);
    if extractMisc {
      response := response.(miscCharges := Some(charges.GetOr(0.0)));
    }
    r := Success(response);
  }

  /** `GET /uploads/{subfolder}/{filename}`: the file under the upload folder, or 404. */
  function GetFile(subfolder: string, filename: string, fileExists: bool): (r: Result<string>)
    ensures subfolder !in FolderNames ==> r == Failure(HttpError(404, "Invalid folder"))
    ensures subfolder in FolderNames && !fileExists ==> r == Failure(HttpError(404, "File not found"))
    ensures r.Success? <==> subfolder in FolderNames && fileExists
    ensures r.Success? ==> r.value == subfolder + "/" + filename
  {
    if subfolder !in FolderNames then Failure(HttpError(404, "Invalid folder"))
    else if !fileExists then Failure(HttpError(404, "File not found"))
    else Success(subfolder + "/" + filename)
  }

  /** `DELETE /upload/{subfolder}/{filename}`: the same guard answers 400 here; a
      removal that raises (`removeError`) is answered with 500. */
  function DeleteFile(subfolder: string, filename: string, fileExists: bool, removeError: Option<string>): (r: Result<string>)
    ensures subfolder !in FolderNames ==> r == Failure(HttpError(400, "Invalid folder"))
    ensures subfolder in FolderNames && !fileExists ==> r == Failure(HttpError(404, "File not found"))
    ensures subfolder in FolderNames && fileExists && removeError.Some? ==>
      r == Failure(HttpError(500, "Failed to delete file: " + removeError.value))
    ensures r.Success? <==> subfolder in FolderNames && fileExists && removeError.None?
    ensures r.Success? ==> r.value == "File " + filename + " deleted from " + subfolder + "/"
  {
    if subfolder !in FolderNames then Failure(HttpError(400, "Invalid folder"))
    else if !fileExists then Failure(HttpError(404, "File not found"))
    else if removeError.Some? then Failure(HttpError(500, "Failed to delete file: " + removeError.value))
    else Success("File " + filename + " deleted from " + subfolder + "/")
  }

  /** Every folder an upload writes to is one the download and delete routes accept. */
  lemma UploadedFilesAreReachable(docType: string, filename: string)
    requires docType in DocFolders
    ensures GetFile(DocFolders[docType], filename, true).Success?
    ensures DeleteFile(DocFolders[docType], filename, true, None).Success?
  {
    FolderTable();
  }
}
