// The clients page (src/pages/clients/ClientsPage.tsx): the name search
// with its status counters and the handlers that create, edit and delete a
// client.

module ClientsPage {
  import opened Seqs
  import opened Text
  import opened Records
  import opened AppContext
  import IdLists

  function ClientId(s: Client): int
  {
    s.id
  }

  // ------------------------------------------------------------- the list

  predicate MatchesSearch(s: Client, term: string)
  {
    Contains(Lower(s.name), Lower(term))
  }

  /** Only the filters 'all', 'active' and 'inactive' let anything through. */
  predicate MatchesFilter(s: Client, filter: string)
  {
    filter == "all" || (filter == "active" && s.status == "active") || (filter == "inactive" && s.status == "inactive")
  }

  function MatchesBy(term: string, filter: string): Client -> bool
  {
    (s: Client) => MatchesSearch(s, term) && MatchesFilter(s, filter)
  }

  /** filteredClients */
  function Shown(ss: seq<Client>, term: string, filter: string): seq<Client>
  {
    Filter(ss, MatchesBy(term, filter))
  }

  /** The list keeps the stored order and holds exactly the clients whose
      name contains the search (case-folded) and whose status is the
      filter's, any status for 'all' and none for a filter other than 'all',
      'active' and 'inactive'; with no search and 'all' it is the whole
      list. */
  lemma ShownSpec(ss: seq<Client>, term: string, filter: string)
    ensures SubseqOf(Shown(ss, term, filter), ss)
    ensures forall s :: s in Shown(ss, term, filter) <==>
      (s in ss && MatchesSearch(s, term) &&
       (filter == "all" || ((filter == "active" || filter == "inactive") && s.status == filter)))
    ensures filter !in ["all", "active", "inactive"] ==> Shown(ss, term, filter) == []
    ensures term == "" && filter == "all" ==> Shown(ss, term, filter) == ss
  {
    FilterIsSubseq(ss, MatchesBy(term, filter));
    FilterMembers(ss, MatchesBy(term, filter));
    if term == "" && filter == "all" {
      forall i | 0 <= i < |ss| ensures MatchesBy(term, filter)(ss[i]) {
        ContainsEmpty(Lower(ss[i].name));
      }
      FilterAll(ss, MatchesBy(term, filter));
    }
    if filter !in ["all", "active", "inactive"] {
      FilterNone(ss, MatchesBy(term, filter));
    }
  }

  function HasStatus(st: string): Client -> bool
  {
    (s: Client) => s.status == st
  }

  /** 'Ativos' and 'Inativos' add up to 'Total' when every status is one of
      the two. */
  lemma CountsAddUp(ss: seq<Client>)
    requires forall i :: 0 <= i < |ss| ==> ss[i].status in ["active", "inactive"]
    ensures Count(ss, HasStatus("active")) + Count(ss, HasStatus("inactive")) == |ss|
  {
    CountComplement(ss, HasStatus("active"), HasStatus("inactive"));
  }

  // -------------------------------------------------------------- the form

  datatype ClientForm = ClientForm(
    name: string, kind: string, contact: string, email: string, phone: string, city: string)

  function BlankForm(): ClientForm
  {
    ClientForm("", "Varejo", "", "", "", "")
  }

  /** The edit button loads the client itself into the form. */
  function FormOf(s: Client): ClientForm
  {
    ClientForm(s.name, s.kind, s.contact, s.email, s.phone, s.city)
  }

  /** {...s, ...clientForm} */
  function Merged(f: ClientForm): Client -> Client
  {
    (s: Client) => s.(name := f.name, kind := f.kind, contact := f.contact, email := f.email,
      phone := f.phone, city := f.city)
  }

  /** The record a creation adds: the form's fields under the clock's id, with
      status 'active', rating 3, credit limit 10000, no credit used and last
      purchase 'N/A'; the fields the form lacks are empty. */
  function NewClient(f: ClientForm, c: Clock): Client
  {
    Client(c.now, f.name, f.kind, f.contact, f.email, f.phone, "", "", f.city, 3, "active", Some(10000.0), Some(0.0), "N/A")
  }

  /** handleClientSubmit */
  function Submit(l: Lists, f: ClientForm, editing: Option<int>, c: Clock): Lists
  {
    if Editing(editing) then
      l.(clients := IdLists.Update(l.clients, ClientId, editing.value, Merged(f)),
        activities := LogActivity(l.activities, Activity(c.now, "Editou cliente", f.name, c.iso, "neutral")))
    else
      l.(clients := [NewClient(f, c)] + l.clients,
        activities := LogActivity(l.activities, Activity(c.now, "Adicionou cliente", f.name, c.iso, "neutral")))
  }

  /** A new client goes in front, active, rated 3, with a credit limit of
      10000 of which nothing is used; the rest of the list is kept. */
  lemma SubmitCreates(l: Lists, f: ClientForm, editing: Option<int>, c: Clock)
    requires !Editing(editing)
    ensures var r := Submit(l, f, editing, c).clients;
      |r| == |l.clients| + 1 && r[1..] == l.clients && r[0].id == c.now &&
      FormOf(r[0]) == f && r[0].status == "active" && r[0].rating == 3 &&
      r[0].creditLimit == Some(10000.0) && r[0].usedCredit == Some(0.0) && r[0].lastPurchase == "N/A"
  {
  }

  /** An edit keeps length and ids, changes only the record with the edited
      id, and there only the six form fields. */
  lemma SubmitEdits(l: Lists, f: ClientForm, editing: Option<int>, c: Clock, i: nat)
    requires Editing(editing) && i < |l.clients|
    ensures var r := Submit(l, f, editing, c).clients;
      |r| == |l.clients| && r[i].id == l.clients[i].id &&
      (l.clients[i].id != editing.value ==> r[i] == l.clients[i]) &&
      (l.clients[i].id == editing.value ==> (FormOf(r[i]) == f &&
        r[i].(name := "", kind := "", contact := "", email := "", phone := "", city := "") ==
        l.clients[i].(name := "", kind := "", contact := "", email := "", phone := "", city := "")))
  {
  }

  /** Saving an untouched edit form changes no client. */
  lemma EditRoundTrip(l: Lists, x: Client, c: Clock)
    requires x in l.clients && UniqueIds(l.clients, ClientId) && x.id != 0
    ensures Submit(l, FormOf(x), Some(x.id), c).clients == l.clients
  {
    var r := Submit(l, FormOf(x), Some(x.id), c).clients;
    forall i | 0 <= i < |l.clients| ensures r[i] == l.clients[i] {
      if l.clients[i].id == x.id {
        var k :| 0 <= k < |l.clients| && l.clients[k] == x;
        assert i == k;
      }
    }
  }

  /** deleteClient: no confirmation; the removal is logged when the id is
      stored. */
  function Delete(l: Lists, id: int, c: Clock): Lists
  {
    var kept := IdLists.Remove(l.clients, ClientId, id);
    match IdLists.Find(l.clients, ClientId, id)
      case None => l.(clients := kept)
      case Some(x) =>
        l.(clients := kept,
          activities := LogActivity(l.activities, Activity(c.now, "Removeu cliente", x.name, c.iso, "neutral")))
  }

  /** A delete keeps, in order, exactly the clients without the id, and it
      changes anything at all exactly when the id was stored. */
  lemma DeleteSpec(l: Lists, id: int, c: Clock)
    ensures SubseqOf(Delete(l, id, c).clients, l.clients)
    ensures forall x :: x in Delete(l, id, c).clients <==> x in l.clients && x.id != id
    ensures (forall i :: 0 <= i < |l.clients| ==> l.clients[i].id != id) <==> Delete(l, id, c) == l
  {
    IdLists.RemoveSpec(l.clients, ClientId, id);
    if exists i :: 0 <= i < |l.clients| && l.clients[i].id == id {
      var i :| 0 <= i < |l.clients| && l.clients[i].id == id;
      DeleteDrops(l, id, c, i);
    }
  }

  lemma DeleteDrops(l: Lists, id: int, c: Clock, i: nat)
    requires i < |l.clients| && l.clients[i].id == id
    ensures Delete(l, id, c) != l
  {
    IdLists.RemoveSpec(l.clients, ClientId, id);
    assert l.clients[i] !in Delete(l, id, c).clients;
  }

  // ------------------------------------------------------------ component

  datatype PageState = PageState(
    searchTerm: string, filter: string, isFormOpen: bool, editingId: Option<int>, form: ClientForm)

  class ClientsView {
    const store: AppStore
    var searchTerm: string
    var filter: string
    var isFormOpen: bool
    var editingId: Option<int>
    var form: ClientForm

    function Page(): PageState
      reads this
    {
      PageState(searchTerm, filter, isFormOpen, editingId, form)
    }

    constructor (store: AppStore)
      ensures this.store == store
      ensures Page() == PageState("", "all", false, None, BlankForm())
    {
      this.store := store;
      searchTerm, filter, isFormOpen, editingId, form := "", "all", false, None, BlankForm();
    }

    /** filteredClients over the store's list. */
    function ShownClients(): seq<Client>
      reads this, store
    {
      Shown(store.clients, searchTerm, filter)
    }

    method SetSearch(term: string)
      modifies this
      ensures Page() == old(Page()).(searchTerm := term)
    {
      searchTerm := term;
    }

    /** The counter cards double as the status filter. */
    method SetFilter(f: string)
      modifies this
      ensures Page() == old(Page()).(filter := f)
    {
      filter := f;
    }

    /** "Novo Cliente". */
    method OpenNew()
      modifies this
      ensures Page() == old(Page()).(isFormOpen := true, editingId := None, form := BlankForm())
    {
      isFormOpen, editingId, form := true, None, BlankForm();
    }

    method OpenEdit(x: Client)
      modifies this
      ensures Page() == old(Page()).(isFormOpen := true, editingId := Some(x.id), form := FormOf(x))
    {
      editingId, form, isFormOpen := Some(x.id), FormOf(x), true;
    }

    method Close()
      modifies this
      ensures Page() == old(Page()).(isFormOpen := false)
    {
      isFormOpen := false;
    }

    method Enter(f: ClientForm)
      modifies this
      ensures Page() == old(Page()).(form := f)
    {
      form := f;
    }

    /** handleClientSubmit */
    method SubmitForm(c: Clock)
      modifies this, store
      ensures store.Contents() == Submit(old(store.Contents()), old(form), old(editingId), c)
      ensures Page() == old(Page()).(isFormOpen := false, editingId := None, form := BlankForm())
    {
      if Editing(editingId) {
        store.clients := IdLists.Update(store.clients, ClientId, editingId.value, Merged(form));
        store.AddActivity("Editou cliente", form.name, "neutral", c);
      } else {
        store.clients := [NewClient(form, c)] + store.clients;
        store.AddActivity("Adicionou cliente", form.name, "neutral", c);
      }
      isFormOpen, editingId, form := false, None, BlankForm();
    }

    /** deleteClient */
    method DeleteClient(id: int, c: Clock)
      modifies store
      ensures store.Contents() == Delete(old(store.Contents()), id, c)
    {
      var x := IdLists.Find(store.clients, ClientId, id);
      if x.Some? {
        store.AddActivity("Removeu cliente", x.value.name, "neutral", c);
      }
      store.clients := IdLists.Remove(store.clients, ClientId, id);
    }
  }
}
