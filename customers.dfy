/** The customers page: a search over company, contact, e-mail and GST number,
    a dialog whose form is filled from the customer being edited, a save that
    requires a company name and either updates or creates, a delete of the
    chosen customer, and the "With GST" counter. */
module Customers {
  import opened Common
  import opened Strings
  import opened Seqs

  datatype Customer = Customer(
    id: int,
    tenantId: int,
    companyName: string,
    contactPerson: Option<string>,
    phone: Option<string>,
    email: Option<string>,
    gstNo: Option<string>,
    createdAt: string)

  datatype CustomerForm = CustomerForm(companyName: string, contactPerson: string, phone: string, email: string, gstNo: string)

  const EmptyForm := CustomerForm("", "", "", "", "")

  /** The tenant record kept in browser storage under "4s_tenant". */
  datatype StoredTenant = StoredTenant(id: int, companyName: string)

  /** `getTenantId`: the stored tenant's id, or null when nothing is stored. */
  function TenantId(stored: Option<StoredTenant>): (r: Option<int>)
    ensures r.None? <==> stored.None?
    ensures r.Some? ==> r.value == stored.value.id
  {
    match stored
    case None => None
    case Some(t) => Some(t.id)
  }

  /** `c.field?.toLowerCase().includes(q)`: a null field never matches. */
  predicate OptionalIncludes(field: Option<string>, query: string)
  {
    field.Some? && IncludesIgnoringCase(field.value, query)
  }

  predicate MatchesSearch(query: string, c: Customer)
  {
    IncludesIgnoringCase(c.companyName, query) || OptionalIncludes(c.contactPerson, query)
      || OptionalIncludes(c.email, query) || OptionalIncludes(c.gstNo, query)
  }

  function FilterCustomers(customers: seq<Customer>, query: string): seq<Customer>
  {
    Filter(customers, c => MatchesSearch(query, c))
  }

  /** A customer is listed exactly when the query occurs, ignoring case, in the
      company name or in a non-null contact person, e-mail or GST number. The
      phone number is not searched. */
  lemma FilterCustomersSpec(customers: seq<Customer>, query: string, c: Customer)
    ensures c in FilterCustomers(customers, query) <==>
      c in customers &&
      (Contains(Lower(c.companyName), Lower(query)) ||
       (c.contactPerson.Some? && Contains(Lower(c.contactPerson.value), Lower(query))) ||
       (c.email.Some? && Contains(Lower(c.email.value), Lower(query))) ||
       (c.gstNo.Some? && Contains(Lower(c.gstNo.value), Lower(query))))
    ensures MatchesSearch(query, c) == MatchesSearch(query, c.(phone := Some(query)))
  {
    FilterMembership(customers, c => MatchesSearch(query, c), c);
  }

  /** `customers.filter(c => c.gst_no).length`. */
  function GstCount(customers: seq<Customer>): nat
  {
    |Filter(customers, (c: Customer) => TruthyStr(c.gstNo))|
  }

  /** The counter is the number of customers with a non-empty GST number, never more than the total. */
  lemma GstCountSpec(customers: seq<Customer>)
    ensures GstCount(customers) <= |customers|
    ensures GstCount(customers) == 0 <==> forall i :: 0 <= i < |customers| ==> !TruthyStr(customers[i].gstNo)
  {
    FilterEmptyIff(customers, (c: Customer) => TruthyStr(c.gstNo));
  }

  /** The form shown when editing `c`: each nullable column becomes "". */
  function FormFor(c: Customer): (f: CustomerForm)
    ensures f.companyName == c.companyName
    ensures f.contactPerson == OrText(c.contactPerson, "") && f.phone == OrText(c.phone, "")
    ensures f.email == OrText(c.email, "") && f.gstNo == OrText(c.gstNo, "")
  {
    CustomerForm(c.companyName, OrText(c.contactPerson, ""), OrText(c.phone, ""), OrText(c.email, ""), OrText(c.gstNo, ""))
  }

  datatype SaveRequest =
    | PutCustomer(customerId: int, body: CustomerForm)
    | PostCustomer(body: CustomerForm, tenantId: Option<int>)

  /** The request a save issues, or None when the company name is blank. */
  function SaveRequestFor(form: CustomerForm, editing: Option<Customer>, tenantId: Option<int>): (r: Option<SaveRequest>)
    ensures r.None? <==> forall i :: 0 <= i < |form.companyName| ==> IsSpace(form.companyName[i])
    ensures r.Some? && editing.Some? ==> r.value == PutCustomer(editing.value.id, form)
    ensures r.Some? && editing.None? ==> r.value == PostCustomer(form, tenantId)
  {
    TrimEmptyIffBlank(form.companyName);
    if Trim(form.companyName) == "" then None
    else if editing.Some? then Some(PutCustomer(editing.value.id, form))
    else Some(PostCustomer(form, tenantId))
  }

  /** A company name of a single no-break space or ideographic space is blank to
      `trim()`, so no request is issued for it. */
  lemma UnicodeBlankNameRefused(form: CustomerForm, editing: Option<Customer>, tenantId: Option<int>)
    requires form.companyName == "\U{00A0}" || form.companyName == "\U{3000}"
    ensures SaveRequestFor(form, editing, tenantId) == None
  {
    assert IsSpace(form.companyName[0]);
  }

  datatype SaveOutcome = NameRequired | Saved | SaveFailed

  class CustomersPage {
    var customers: seq<Customer>
    var searchQuery: string
    var isDialogOpen: bool
    var isDeleteDialogOpen: bool
    var editingCustomer: Option<Customer>
    var deletingCustomer: Option<Customer>
    var form: CustomerForm
    var isSaving: bool
    /** Browser storage entry "4s_tenant". */
    var storedTenant: Option<StoredTenant>

    constructor (stored: Option<StoredTenant>)
      ensures customers == [] && searchQuery == "" && !isDialogOpen && !isDeleteDialogOpen
      ensures editingCustomer == None && deletingCustomer == None && form == EmptyForm && !isSaving
      ensures storedTenant == stored
    {
      customers := [];
      searchQuery := "";
      isDialogOpen := false;
      isDeleteDialogOpen := false;
      editingCustomer := None;
      deletingCustomer := None;
      form := EmptyForm;
      isSaving := false;
      storedTenant := stored;
    }

    function FilteredCustomers(): seq<Customer>
      reads this
    {
      FilterCustomers(customers, searchQuery)
    }

    /** `openDialog(customer?)`. */
    method OpenDialog(customer: Option<Customer>)
      modifies this
      ensures editingCustomer == customer
      ensures form == if customer.Some? then FormFor(customer.value) else EmptyForm
      ensures isDialogOpen
      ensures customers == old(customers) && searchQuery == old(searchQuery) && isSaving == old(isSaving)
      ensures deletingCustomer == old(deletingCustomer) && isDeleteDialogOpen == old(isDeleteDialogOpen)
      ensures storedTenant == old(storedTenant)
    {
      if customer.Some? {
        editingCustomer := customer;
        form := FormFor(customer.value);
      } else {
        editingCustomer := None;
        form := EmptyForm;
      }
      isDialogOpen := true;
    }

    /** `handleSave`, given whether the server answers ok. A blank company name
        stops before any request; a successful request closes the dialog and starts a
        refetch of the list (`refetch`; the list itself changes when that fetch
        answers); the saving flag is cleared whatever the answer. */
    method HandleSave(responseOk: bool) returns (request: Option<SaveRequest>, outcome: SaveOutcome, refetch: bool)
      modifies this
      ensures request == SaveRequestFor(old(form), old(editingCustomer), TenantId(old(storedTenant)))
      ensures request.None? ==> outcome == NameRequired && isSaving == old(isSaving) && isDialogOpen == old(isDialogOpen)
      ensures request.Some? ==> outcome == (if responseOk then Saved else SaveFailed) && !isSaving
      ensures request.Some? ==> isDialogOpen == (old(isDialogOpen) && !responseOk)
      ensures refetch <==> request.Some? && responseOk
      ensures form == old(form) && editingCustomer == old(editingCustomer) && customers == old(customers)
      ensures deletingCustomer == old(deletingCustomer) && isDeleteDialogOpen == old(isDeleteDialogOpen)
      ensures searchQuery == old(searchQuery) && storedTenant == old(storedTenant)
    {
      if Trim(form.companyName) == "" {
        return None, NameRequired, false;
      }
      isSaving := true;
      var tenantId := TenantId(storedTenant);
      if editingCustomer.Some? {
        request := Some(PutCustomer(editingCustomer.value.id, form));
      } else {
        request := Some(PostCustomer(form, tenantId));
      }
      if responseOk {
        outcome := Saved;
        isDialogOpen := false;
      } else {
        outcome := SaveFailed;
      }
      refetch := responseOk;
      isSaving := false;
    }

    /** `handleDelete`: returns the id a DELETE is issued for, if any, and whether a
        refetch of the list starts (on success; the list changes when it answers). */
    method HandleDelete(responseOk: bool) returns (deletedId: Option<int>, refetch: bool)
      modifies this
      ensures old(deletingCustomer).None? ==>
        deletedId.None? && deletingCustomer == old(deletingCustomer) && isDeleteDialogOpen == old(isDeleteDialogOpen)
      ensures old(deletingCustomer).Some? ==> deletedId == Some(old(deletingCustomer).value.id)
      ensures refetch <==> deletedId.Some? && responseOk
      ensures old(deletingCustomer).Some? && responseOk ==> deletingCustomer.None? && !isDeleteDialogOpen
      ensures old(deletingCustomer).Some? && !responseOk ==>
        deletingCustomer == old(deletingCustomer) && isDeleteDialogOpen == old(isDeleteDialogOpen)
      ensures customers == old(customers) && form == old(form) && editingCustomer == old(editingCustomer)
      ensures isDialogOpen == old(isDialogOpen) && isSaving == old(isSaving)
      ensures searchQuery == old(searchQuery) && storedTenant == old(storedTenant)
    {
      if deletingCustomer.None? {
        return None, false;
      }
      deletedId := Some(deletingCustomer.value.id);
      refetch := responseOk;
      if responseOk {
        isDeleteDialogOpen := false;
        deletingCustomer := None;
      }
    }
  }
}
