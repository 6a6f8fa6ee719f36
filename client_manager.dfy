/** The client manager dialog of the settings page: a name search, a form
    filled from the client being edited, and a save that only requires the
    name to be non-empty. */
module ClientManager {
  import opened Common
  import opened Strings
  import opened Seqs

  datatype Client = Client(
    id: int,
    name: string,
    address: Option<string>,
    email: Option<string>,
    phone: Option<string>,
    contactPerson: Option<string>)

  datatype ClientForm = ClientForm(name: string, address: string, email: string, phone: string, contactPerson: string)

  const BlankForm := ClientForm("", "", "", "", "")

  /** The form shown when editing `c`. */
  function FormFor(c: Client): (f: ClientForm)
    ensures f.name == c.name && f.address == OrText(c.address, "") && f.email == OrText(c.email, "")
    ensures f.phone == OrText(c.phone, "") && f.contactPerson == OrText(c.contactPerson, "")
  {
    ClientForm(c.name, OrText(c.address, ""), OrText(c.email, ""), OrText(c.phone, ""), OrText(c.contactPerson, ""))
  }

  predicate MatchesSearch(query: string, c: Client)
  {
    IncludesIgnoringCase(c.name, query)
  }

  function FilterClients(clients: seq<Client>, query: string): seq<Client>
  {
    Filter(clients, c => MatchesSearch(query, c))
  }

  /** A client is listed exactly when the query occurs in its name, ignoring case;
      "No clients found" shows exactly when no client's name matches. */
  lemma FilterClientsSpec(clients: seq<Client>, query: string, c: Client)
    ensures c in FilterClients(clients, query) <==> c in clients && Contains(Lower(c.name), Lower(query))
    ensures FilterClients(clients, query) == [] <==>
      forall i :: 0 <= i < |clients| ==> !Contains(Lower(clients[i].name), Lower(query))
  {
    FilterMembership(clients, c => MatchesSearch(query, c), c);
    FilterEmptyIff(clients, c => MatchesSearch(query, c));
  }

  datatype SaveRequest = UpdateClient(clientId: int, body: ClientForm) | CreateClient(body: ClientForm)

  /** The request a save issues: none for an empty name (a name of spaces is accepted). */
  function SaveRequestFor(form: ClientForm, editing: Option<Client>): (r: Option<SaveRequest>)
    ensures r.None? <==> form.name == ""
    ensures r.Some? ==> r.value == if editing.Some? then UpdateClient(editing.value.id, form) else CreateClient(form)
  {
    if form.name == "" then None
    else if editing.Some? then Some(UpdateClient(editing.value.id, form))
    else Some(CreateClient(form))
  }

  lemma BlankNameIsAccepted()
    ensures SaveRequestFor(BlankForm.(name := " "), None).Some?
  {
  }

  datatype SaveOutcome = NameRequired | Saved | SaveFailed

  class ClientManagerDialog {
    var clients: seq<Client>
    var searchQuery: string
    var editingClient: Option<Client>
    var isFormOpen: bool
    var formData: ClientForm

    constructor ()
      ensures clients == [] && searchQuery == "" && editingClient == None && !isFormOpen && formData == BlankForm
    {
      clients := [];
      searchQuery := "";
      editingClient := None;
      isFormOpen := false;
      formData := BlankForm;
    }

    function FilteredClients(): seq<Client>
      reads this
    {
      FilterClients(clients, searchQuery)
    }

    /** "No clients found" is shown in the list. */
    predicate ShowsNoClientsFound()
      reads this
    {
      |FilteredClients()| == 0
    }

    /** `openForm(client?)`. */
    method OpenForm(client: Option<Client>)
      modifies this
      ensures editingClient == client
      ensures formData == if client.Some? then FormFor(client.value) else BlankForm
      ensures isFormOpen
      ensures clients == old(clients) && searchQuery == old(searchQuery)
    {
      if client.Some? {
        editingClient := client;
        formData := FormFor(client.value);
      } else {
        editingClient := None;
        formData := BlankForm;
      }
      isFormOpen := true;
    }

    /** `handleSave`, given whether the service call succeeds. */
    method HandleSave(callSucceeds: bool) returns (request: Option<SaveRequest>, outcome: SaveOutcome)
      modifies this
      ensures request == SaveRequestFor(old(formData), old(editingClient))
      ensures request.None? ==> outcome == NameRequired && isFormOpen == old(isFormOpen) && editingClient == old(editingClient)
      ensures request.Some? && callSucceeds ==> outcome == Saved && !isFormOpen && editingClient == None
      ensures request.Some? && !callSucceeds ==>
        outcome == SaveFailed && isFormOpen == old(isFormOpen) && editingClient == old(editingClient)
      ensures formData == old(formData) && clients == old(clients) && searchQuery == old(searchQuery)
    {
      if formData.name == "" {
        return None, NameRequired;
      }
      if editingClient.Some? {
        request := Some(UpdateClient(editingClient.value.id, formData));
      } else {
        request := Some(CreateClient(formData));
      }
      if callSucceeds {
        outcome := Saved;
        isFormOpen := false;
        editingClient := None;
      } else {
        outcome := SaveFailed;
      }
    }
  }
}
