/** The client list page: the search filter, the create/edit dialog with its phone
    and currency masks, the save that turns the form into a row write, and delete.
    Remote calls are outcome flags; the reload after a save is a separate step. */
module Clients {
  import opened Wrappers
  import opened Text
  import opened Lists
  import Phone
  import Money

  /** A stored client. The contract value is held in cents; an absent e-mail, phone,
      state or city is the empty string, which is what the form shows for it. */
  datatype Client = Client(
    id: string, name: string, email: string, phone: string, companyName: string,
    contractCents: nat, status: string, state: string, city: string)

  /** The dialog's fields, as text. */
  datatype Form = Form(
    name: string, email: string, phone: string, companyName: string,
    contractValue: string, state: string, city: string)

  const EmptyForm := Form("", "", "", "", "", "", "")

  /** The columns a save writes; the contract value is the parsed number. */
  datatype Fields = Fields(
    name: string, email: string, phone: string, companyName: string,
    contractValue: real, state: string, city: string)

  /** The write a save issues: an update of the client being edited, or an insert. */
  datatype Write =
    | Update(id: string, fields: Fields)
    | Insert(userId: string, fields: Fields, status: string)

  /** The form `openEditModal` fills in for a client. */
  function EditForm(c: Client): Form
  {
    Form(c.name, c.email, c.phone, c.companyName, Money.EditValue(c.contractCents), c.state, c.city)
  }

  /** The columns written from the form. */
  function FieldsOf(f: Form): Fields
  {
    Fields(f.name, f.email, f.phone, f.companyName, Money.ParseAmount(f.contractValue), f.state, f.city)
  }

  /** Opening a client for edit and saving without changes writes back exactly what is stored. */
  lemma EditSaveRoundTrip(c: Client)
    ensures FieldsOf(EditForm(c))
         == Fields(c.name, c.email, c.phone, c.companyName, c.contractCents as real / 100.0, c.state, c.city)
  {
    Money.EditRoundTrip(c.contractCents);
  }

  /** The search predicate: the name or the company contains the term, ignoring case. */
  function MatchesSearch(term: string): Client -> bool
  {
    (c: Client) => Matches(c.name, term) || Matches(c.companyName, term)
  }

  /** `filteredClients`: the clients whose name or company contains the term, in list order. */
  function FilteredClients(clients: seq<Client>, term: string): (r: seq<Client>)
    ensures forall i :: 0 <= i < |r| ==> r[i] in clients
    ensures forall i :: 0 <= i < |r| ==> Matches(r[i].name, term) || Matches(r[i].companyName, term)
    ensures forall i :: 0 <= i < |clients| && (Matches(clients[i].name, term) || Matches(clients[i].companyName, term))
              ==> clients[i] in r
  {
    FilterMembers(clients, MatchesSearch(term));
    Filter(clients, MatchesSearch(term))
  }

  /** The search keeps the list's order and multiplicities: it maps a concatenation to the
      concatenation of the results, and one client to itself or to nothing. */
  lemma FilteredClientsInOrder(a: seq<Client>, b: seq<Client>, c: Client, term: string)
    ensures FilteredClients(a + b, term) == FilteredClients(a, term) + FilteredClients(b, term)
    ensures FilteredClients([c], term) == (if Matches(c.name, term) || Matches(c.companyName, term) then [c] else [])
  {
    FilterInOrder(a, b, c, MatchesSearch(term));
  }

  /** An empty search shows every client. */
  lemma EmptySearchShowsAll(clients: seq<Client>)
    ensures FilteredClients(clients, "") == clients
  {
    assert Lower("") == "";
    forall i | 0 <= i < |clients| ensures MatchesSearch("")(clients[i]) {
      EmptyIncluded(Lower(clients[i].name));
    }
    FilterMembers(clients, MatchesSearch(""));
  }

  function IdOf(c: Client): string
  {
    c.id
  }

  /** The list after a successful delete: every client with that id is gone, the rest stay in order. */
  function Without(xs: seq<Client>, id: string): seq<Client>
  {
    WithoutKey(xs, IdOf, id)
  }

  class ClientsPage {
    var clients: seq<Client>
    var searchTerm: string
    var dialogOpen: bool
    var editingId: Option<string>
    var form: Form

    constructor()
      ensures clients == [] && searchTerm == "" && !dialogOpen && editingId == None && form == EmptyForm
    {
      clients := [];
      searchTerm := "";
      dialogOpen := false;
      editingId := None;
      form := EmptyForm;
    }

    /** `fetchClients`: the list is replaced when the query succeeds. */
    method Fetched(rows: seq<Client>, ok: bool)
      modifies this
      ensures clients == (if ok then rows else old(clients))
      ensures searchTerm == old(searchTerm) && dialogOpen == old(dialogOpen)
      ensures editingId == old(editingId) && form == old(form)
    {
      if ok {
        clients := rows;
      }
    }

    method SetSearchTerm(term: string)
      modifies this
      ensures searchTerm == term
      ensures clients == old(clients) && dialogOpen == old(dialogOpen)
      ensures editingId == old(editingId) && form == old(form)
    {
      searchTerm := term;
    }

    /** `handleStateChange`: a new state clears the chosen city. */
    method HandleStateChange(value: string)
      modifies this
      ensures form == old(form).(state := value, city := "")
      ensures clients == old(clients) && searchTerm == old(searchTerm)
      ensures dialogOpen == old(dialogOpen) && editingId == old(editingId)
    {
      form := form.(state := value, city := "");
    }

    /** `handleCurrencyChange`: the typed digits are shown as a pt-BR amount in cents. */
    method HandleCurrencyChange(input: string)
      modifies this
      ensures form == old(form).(contractValue := Money.CurrencyMask(input))
      ensures clients == old(clients) && searchTerm == old(searchTerm)
      ensures dialogOpen == old(dialogOpen) && editingId == old(editingId)
    {
      form := form.(contractValue := Money.CurrencyMask(input));
    }

    /** `handlePhoneChange`: the first eleven typed digits, laid out as a phone number. */
    method HandlePhoneChange(input: string)
      modifies this
      ensures form == old(form).(phone := Phone.PhoneMask(input))
      ensures clients == old(clients) && searchTerm == old(searchTerm)
      ensures dialogOpen == old(dialogOpen) && editingId == old(editingId)
    {
      form := form.(phone := Phone.PhoneMask(input));
    }

    /** `openEditModal`: remembers the client and fills the form from it. */
    method OpenEditModal(c: Client)
      modifies this
      ensures editingId == Some(c.id) && form == EditForm(c) && dialogOpen
      ensures clients == old(clients) && searchTerm == old(searchTerm)
    {
      editingId := Some(c.id);
      form := EditForm(c);
      dialogOpen := true;
    }

    /** `handleOpenChange`: closing the dialog forgets the client being edited and empties the form. */
    method HandleOpenChange(open: bool)
      modifies this
      ensures dialogOpen == open
      ensures editingId == (if open then old(editingId) else None)
      ensures form == (if open then old(form) else EmptyForm)
      ensures clients == old(clients) && searchTerm == old(searchTerm)
    {
      dialogOpen := open;
      if !open {
        editingId := None;
        form := EmptyForm;
      }
    }

    /** `handleSaveClient`. `user` is the signed-in user, `writeOk` whether the write
        succeeds. Nothing is written without a name and a company, or without a
        user; a successful write closes the dialog. */
    method SaveClient(user: Option<string>, writeOk: bool) returns (write: Option<Write>)
      modifies this
      ensures write.Some? <==> old(form).name != "" && old(form).companyName != "" && user.Some?
      ensures write.Some? && Truthy(old(editingId)) ==> write.value == Update(old(editingId).value, FieldsOf(old(form)))
      ensures write.Some? && !Truthy(old(editingId)) ==> write.value == Insert(user.value, FieldsOf(old(form)), "active")
      ensures write.Some? && writeOk ==> !dialogOpen && editingId == None && form == EmptyForm
      ensures !(write.Some? && writeOk) ==>
                dialogOpen == old(dialogOpen) && editingId == old(editingId) && form == old(form)
      ensures clients == old(clients) && searchTerm == old(searchTerm)
    {
      if form.name == "" || form.companyName == "" {
        return None;
      }
      var fields := FieldsOf(form);
      if user.None? {
        return None;
      }
      if Truthy(editingId) {
        write := Some(Update(editingId.value, fields));
      } else {
        write := Some(Insert(user.value, fields, "active"));
      }
      if writeOk {
        HandleOpenChange(false);
      }
    }

    /** `handleDeleteClient`: asks first; the list drops the client only when the delete succeeds.
        Returns whether the delete was sent. */
    method DeleteClient(id: string, confirmed: bool, deleteOk: bool) returns (sent: bool)
      modifies this
      ensures sent == confirmed
      ensures clients == (if confirmed && deleteOk then Without(old(clients), id) else old(clients))
      ensures searchTerm == old(searchTerm) && dialogOpen == old(dialogOpen)
      ensures editingId == old(editingId) && form == old(form)
    {
      if !confirmed {
        return false;
      }
      sent := true;
      if deleteOk {
        clients := Without(clients, id);
      }
    }

    /** The clients on screen. */
    function Visible(): (r: seq<Client>)
      reads this
      ensures forall i :: 0 <= i < |r| ==> r[i] in clients
    {
      FilteredClients(clients, searchTerm)
    }
  }
}
