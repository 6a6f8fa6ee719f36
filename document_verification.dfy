/** The document-verification section: ten extracted fields, each shown with
    its value or '-', and a mismatch counter. Unit Price and HS Code are always
    flagged; every other field matches when a value was extracted. */
module DocumentVerification {
  import opened Common
  import opened Seqs

  /** The optional `fields` prop; an absent prop is the empty object (every field absent). */
  datatype ExtractedFields = ExtractedFields(
    invoiceNumber: Option<string>,
    invoiceDate: Option<string>,
    shipper: Option<string>,
    consignee: Option<string>,
    description: Option<string>,
    quantity: Option<string>,
    unitPrice: Option<string>,
    totalValue: Option<string>,
    hsCode: Option<string>,
    countryOfOrigin: Option<string>)

  const NoFields := ExtractedFields(None, None, None, None, None, None, None, None, None, None)

  datatype FieldRow = FieldRow(caption: string, value: string, matches: bool)

  /** A row whose match flag is the truthiness of its value. */
  function Checked(caption: string, v: Option<string>): FieldRow
  {
    FieldRow(caption, OrText(v, "-"), TruthyStr(v))
  }

  /** A row that is flagged whatever its value. */
  function AlwaysFlagged(caption: string, v: Option<string>): FieldRow
  {
    FieldRow(caption, OrText(v, "-"), false)
  }

  function FieldList(f: ExtractedFields): seq<FieldRow>
  {
    [Checked("Invoice Number", f.invoiceNumber),
     Checked("Invoice Date", f.invoiceDate),
     Checked("Shipper", f.shipper),
     Checked("Consignee", f.consignee),
     Checked("Description", f.description),
     Checked("Quantity", f.quantity),
     AlwaysFlagged("Unit Price", f.unitPrice),
     Checked("Total Value", f.totalValue),
     AlwaysFlagged("HS Code", f.hsCode),
     Checked("Country of Origin", f.countryOfOrigin)]
  }

  /** The value each row reads, in row order. */
  function Values(f: ExtractedFields): seq<Option<string>>
  {
    [f.invoiceNumber, f.invoiceDate, f.shipper, f.consignee, f.description,
     f.quantity, f.unitPrice, f.totalValue, f.hsCode, f.countryOfOrigin]
  }

  /** Ten rows; rows 6 and 8 (Unit Price, HS Code) never match; every other row
      matches exactly when its value is truthy; every row shows its value or '-'. */
  lemma FieldListSpec(f: ExtractedFields)
    ensures |FieldList(f)| == 10
    ensures FieldList(f)[6].caption == "Unit Price" && !FieldList(f)[6].matches
    ensures FieldList(f)[8].caption == "HS Code" && !FieldList(f)[8].matches
    ensures forall i :: 0 <= i < 10 && i != 6 && i != 8 ==> (FieldList(f)[i].matches <==> TruthyStr(Values(f)[i]))
    ensures forall i :: 0 <= i < 10 ==> FieldList(f)[i].value == (if TruthyStr(Values(f)[i]) then Values(f)[i].value else "-")
  {
  }

  predicate Mismatch(r: FieldRow) { !r.matches }

  function MismatchCount(f: ExtractedFields): nat
  {
    |Filter(FieldList(f), Mismatch)|
  }

  /** Whatever was extracted, between 2 and 10 fields are flagged. */
  lemma MismatchBounds(f: ExtractedFields)
    ensures 2 <= MismatchCount(f) <= 10
  {
    var rows := FieldList(f);
    FilterAtLeastTwo(rows, Mismatch, 6, 8);
  }

  /** With nothing extracted every field is flagged. */
  lemma NoFieldsAllMismatch()
    ensures MismatchCount(NoFields) == 10
  {
    var rows := FieldList(NoFields);
    forall i | 0 <= i < |rows| ensures Mismatch(rows[i]) {
      FieldListSpec(NoFields);
    }
    FilterAllPass(rows, Mismatch);
  }
}
