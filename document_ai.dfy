/** The INCOTERM classifier: finds a trade-term code in a document's text and
    derives the document-requirement category the portal applies to it. Text
    extraction itself (OCR, PDF parsing) is outside the model; the text is an input. */
module DocumentAi {
  import opened Common
  import opened Strings
  import opened Paths

  /** Codes in the order they are tried. */
  const Incoterms: seq<string> :=
    ["DAP", "CIF", "CFR", "C&F", "CNF", "FOB", "EXW", "FCA", "FAS", "CPT", "CIP", "DPU", "DDP", "DAT"]

  const BasicTerms: seq<string> := ["DAP", "CIF"]
  const WithMiscTerms: seq<string> := ["CFR", "C&F", "CNF"]
  const WithFreightTerms: seq<string> := ["FOB", "EXW", "FCA"]

  const BaseDocs: seq<string> := ["bl", "invoice", "pl"]

  datatype Category = Basic | WithMisc | WithFreight

  function CategoryName(c: Category): string
  {
    match c
    case Basic => "basic"
    case WithMisc => "with_misc"
    case WithFreight => "with_freight"
  }

  /** The ASCII letters and digits. */
  predicate AsciiAlnum(c: char)
  {
    'A' <= c <= 'Z' || 'a' <= c <= 'z' || '0' <= c <= '9'
  }

  /** `alnum` stands for Python's `str.isalnum` on one character, which comes from the
      Unicode database; the model only asks that it agree with ASCII on ASCII. */
  predicate AgreesOnAscii(alnum: char -> bool)
  {
    forall c: char :: c < '\U{0080}' ==> (alnum(c) <==> AsciiAlnum(c))
  }

  /** A word character of a `str` pattern: any alphanumeric character, or `_`. */
  predicate IsWordChar(alnum: char -> bool, c: char)
  {
    alnum(c) || c == '_'
  }

  /** `\b` at position `k`: word character on exactly one side. */
  predicate BoundaryAt(alnum: char -> bool, s: string, k: int)
    requires 0 <= k <= |s|
  {
    (k > 0 && IsWordChar(alnum, s[k - 1])) != (k < |s| && IsWordChar(alnum, s[k]))
  }

  /** `\bterm\b` matches at position `i`. */
  predicate WordAt(alnum: char -> bool, s: string, term: string, i: int)
  {
    OccursAt(s, term, i) && BoundaryAt(alnum, s, i) && BoundaryAt(alnum, s, i + |term|)
  }

  /** `re.search(r'\b' + re.escape(term) + r'\b', s)` succeeds. */
  predicate ContainsWord(alnum: char -> bool, s: string, term: string)
  {
    exists i :: 0 <= i <= |s| && WordAt(alnum, s, term, i)
  }

  /** The first of `terms` that occurs as a whole word. */
  function FirstWordMatch(alnum: char -> bool, s: string, terms: seq<string>): Option<string>
  {
    if terms == [] then None
    else if ContainsWord(alnum, s, terms[0]) then Some(terms[0])
    else FirstWordMatch(alnum, s, terms[1..])
  }

  /** The first match is the lowest-indexed term that occurs; none occurs when there is no match. */
  lemma {:induction false} FirstWordMatchIndex(alnum: char -> bool, s: string, terms: seq<string>) returns (k: int)
    ensures -1 <= k < |terms|
    ensures k == -1 <==> FirstWordMatch(alnum, s, terms) == None
    ensures k >= 0 ==> FirstWordMatch(alnum, s, terms) == Some(terms[k]) && ContainsWord(alnum, s, terms[k])
    ensures forall j :: 0 <= j < |terms| && (k == -1 || j < k) ==> !ContainsWord(alnum, s, terms[j])
  {
    if terms == [] {
      k := -1;
    } else if ContainsWord(alnum, s, terms[0]) {
      k := 0;
    } else {
      var k' := FirstWordMatchIndex(alnum, s, terms[1..]);
      k := if k' == -1 then -1 else k' + 1;
      forall j | 0 <= j < |terms| && (k == -1 || j < k)
        ensures !ContainsWord(alnum, s, terms[j])
      {
        if j > 0 {
          assert terms[j] == terms[1..][j - 1];
        }
      }
    }
  }

  /** The spelled-out variants, tried in order only when no code matched. */
  function Fallback(u: string): Option<string>
  {
    if Contains(u, "C & F") || Contains(u, "C AND F") then Some("C&F")
    else if Contains(u, "EX-WORKS") || Contains(u, "EX WORKS") then Some("EXW")
    else if Contains(u, "COST AND FREIGHT") then Some("CFR")
    else if Contains(u, "COST INSURANCE FREIGHT") then Some("CIF")
    else if Contains(u, "FREE ON BOARD") then Some("FOB")
    else if Contains(u, "FREE CARRIER") then Some("FCA")
    else None
  }

  /** The term the classifier settles on, searched in the upper-cased text. */
  function DetectTerm(alnum: char -> bool, text: string): Option<string>
  {
    var u := Upper(text);
    var code := FirstWordMatch(alnum, u, Incoterms);
    if code.Some? then code else Fallback(u)
  }

  datatype IncotermResult = IncotermResult(
    detected: bool,
    term: Option<string>,
    category: Option<Category>,
    requiredDocs: seq<string>,
    needsFreight: bool,
    extractMisc: bool)

  /** The result dictionary for a detected term, or the not-detected default. */
  function ResultFor(term: Option<string>): IncotermResult
  {
    match term
    case None => IncotermResult(false, None, None, BaseDocs, false, false)
    case Some(t) =>
      if t in WithFreightTerms then IncotermResult(true, term, Some(WithFreight), BaseDocs + ["freight"], true, true)
      else if t in WithMiscTerms then IncotermResult(true, term, Some(WithMisc), BaseDocs, false, true)
      else IncotermResult(true, term, Some(Basic), BaseDocs, false, false)
  }

  /** `find_incoterm`: tries the codes in order and stops at the first whole-word match,
      then the phrase variants, then fills in the category, flags and documents. */
  method FindIncoterm(alnum: char -> bool, text: string) returns (r: IncotermResult)
    ensures r == ResultFor(DetectTerm(alnum, text))
  {
    var textUpper := Upper(text);
    var detectedTerm: Option<string> := None;
    var k := 0;
    while k < |Incoterms|
      invariant 0 <= k <= |Incoterms|
      invariant detectedTerm == None
      invariant FirstWordMatch(alnum, textUpper, Incoterms) == FirstWordMatch(alnum, textUpper, Incoterms[k..])
    {
      assert Incoterms[k..][1..] == Incoterms[k + 1..];
      if ContainsWord(alnum, textUpper, Incoterms[k]) {
        detectedTerm := Some(Incoterms[k]);
        break;
      }
      k := k + 1;
    }
    if detectedTerm == None {
      assert Incoterms[k..] == [];
      detectedTerm := Fallback(textUpper);
    }
    if detectedTerm == None {
      return IncotermResult(false, None, None, ["bl", "invoice", "pl"], false, false);
    }
    var category := Basic;
    var needsFreight := false;
    var extractMisc := false;
    if detectedTerm.value in WithFreightTerms {
      category := WithFreight;
      needsFreight := true;
      extractMisc := true;
    } else if detectedTerm.value in WithMiscTerms {
      category := WithMisc;
      extractMisc := true;
    }
    var requiredDocs := ["bl", "invoice", "pl"];
    if needsFreight {
      requiredDocs := requiredDocs + ["freight"];
    }
    r := IncotermResult(true, detectedTerm, Some(category), requiredDocs, needsFreight, extractMisc);
  }

  /** A phrase variant is looked at only when no code occurs as a word. */
  lemma CodesBeforePhrases(alnum: char -> bool, text: string)
    ensures FirstWordMatch(alnum, Upper(text), Incoterms).Some? ==> DetectTerm(alnum, text) == FirstWordMatch(alnum, Upper(text), Incoterms)
    ensures FirstWordMatch(alnum, Upper(text), Incoterms).None? ==> DetectTerm(alnum, text) == Fallback(Upper(text))
  {
  }

  /** Whatever is detected is one of the fourteen codes. */
  lemma DetectedTermIsIncoterm(alnum: char -> bool, text: string)
    ensures DetectTerm(alnum, text).Some? ==> DetectTerm(alnum, text).value in Incoterms
  {
    var k := FirstWordMatchIndex(alnum, Upper(text), Incoterms);
  }

  /** List order decides between codes: with CIF present as a word, FOB (later in the
      list) can never win; only DAP, tried first, can beat CIF. */
  lemma CifBeatsFob(alnum: char -> bool, text: string)
    requires ContainsWord(alnum, Upper(text), "CIF")
    ensures DetectTerm(alnum, text) == Some("DAP") || DetectTerm(alnum, text) == Some("CIF")
  {
    var k := FirstWordMatchIndex(alnum, Upper(text), Incoterms);
    assert Incoterms[1] == "CIF";
  }

  /** The category rules, by code. */
  lemma CategoryRules(t: string)
    ensures t in WithFreightTerms ==>
      ResultFor(Some(t)).category == Some(WithFreight) && ResultFor(Some(t)).needsFreight && ResultFor(Some(t)).extractMisc
    ensures t in WithMiscTerms ==>
      ResultFor(Some(t)).category == Some(WithMisc) && !ResultFor(Some(t)).needsFreight && ResultFor(Some(t)).extractMisc
    ensures t !in WithFreightTerms && t !in WithMiscTerms ==>
      ResultFor(Some(t)).category == Some(Basic) && !ResultFor(Some(t)).needsFreight && !ResultFor(Some(t)).extractMisc
  {
  }

  /** Shape of every result: detected exactly when a term is present; the base documents,
      with "freight" added exactly when freight is needed; freight implies misc charges. */
  lemma ResultShape(term: Option<string>)
    ensures ResultFor(term).detected <==> term.Some?
    ensures ResultFor(term).term == term
    ensures ResultFor(term).category.Some? <==> term.Some?
    ensures ResultFor(term).requiredDocs == BaseDocs + (if ResultFor(term).needsFreight then ["freight"] else [])
    ensures ResultFor(term).needsFreight ==> ResultFor(term).extractMisc
    ensures term.None? ==> !ResultFor(term).needsFreight && !ResultFor(term).extractMisc
  {
  }

  /** The three category lists are disjoint and cover only listed codes. */
  lemma CategoryListsWellFormed()
    ensures forall t :: t in BasicTerms + WithMiscTerms + WithFreightTerms ==> t in Incoterms
    ensures forall t :: t in WithMiscTerms ==> t !in WithFreightTerms && t !in BasicTerms
    ensures forall t :: t in WithFreightTerms ==> t !in BasicTerms
  {
  }

  /** A code glued to other word characters is not a word match. */
  lemma CodeInsideWordIsNotMatched(alnum: char -> bool)
    requires AgreesOnAscii(alnum)
    ensures !ContainsWord(alnum, "FOBX", "FOB")
  {
    var s := "FOBX";
    forall i | 0 <= i <= |s| ensures !WordAt(alnum, s, "FOB", i) {
      if OccursAt(s, "FOB", i) {
        assert s[i] == "FOB"[0];
        assert s[3] == 'X' && AsciiAlnum('X');
      }
    }
  }

  /** A non-ASCII letter counts as a word character too: "ÉFOB" holds no FOB. */
  lemma AccentedLetterJoinsWord(alnum: char -> bool)
    requires AgreesOnAscii(alnum) && alnum('\U{00C9}')
    ensures !ContainsWord(alnum, "\U{00C9}FOB", "FOB")
  {
    var s := "\U{00C9}FOB";
    forall i | 0 <= i <= |s| ensures !WordAt(alnum, s, "FOB", i) {
      if OccursAt(s, "FOB", i) {
        assert s[i] == "FOB"[0];
        assert i == 1 && s[0] == '\U{00C9}' && s[1] == 'F' && AsciiAlnum('F');
      }
    }
  }

  /** The extension-to-MIME table used when a document is sent for OCR. */
  const MimeTypes: map<string, string> := map[
    ".pdf" := "application/pdf",
    ".jpg" := "image/jpeg",
    ".jpeg" := "image/jpeg",
    ".png" := "image/png",
    ".tiff" := "image/tiff",
    ".tif" := "image/tiff"]

  /** `mime_types.get(ext, "application/pdf")` for the lower-cased extension. */
  function MimeTypeFor(filePath: string): (m: string)
    ensures m in {"application/pdf", "image/jpeg", "image/png", "image/tiff"}
    ensures Lower(Extension(filePath)) !in MimeTypes ==> m == "application/pdf"
  {
    var ext := Lower(Extension(filePath));
    if ext in MimeTypes then MimeTypes[ext] else "application/pdf"
  }

  /** `process_packing_list`: the text statistics merged with the classifier's result. */
  datatype PackingListResult = PackingListResult(textExtracted: bool, textLength: nat, incoterm: IncotermResult)

  method ProcessPackingList(alnum: char -> bool, text: string) returns (r: PackingListResult)
    ensures r.textExtracted <==> |text| > 0
    ensures r.textLength == |text|
    ensures r.incoterm == ResultFor(DetectTerm(alnum, text))
  {
    var incotermResult := FindIncoterm(alnum, text);
    r := PackingListResult(|text| > 0, |text|, incotermResult);
  }
}
