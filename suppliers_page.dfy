// The suppliers page (src/pages/suppliers/SuppliersPage.tsx): the name search
// with its status counters and the handlers that create, edit and delete a
// supplier.

module SuppliersPage {
  import opened Seqs
  import opened Text
  import opened Records
  import opened AppContext
  import IdLists

  function SupplierId(s: Supplier): int
  {
    s.id
  }

  // ------------------------------------------------------------- the list

  predicate MatchesSearch(s: Supplier, term: string)
  {
    Contains(Lower(s.name), Lower(term))
  }

  function MatchesBy(term: string, filter: string): Supplier -> bool
  {
    (s: Supplier) => MatchesSearch(s, term) && (filter == "all" || s.status == filter)
  }

  /** filteredSuppliers */
  function Shown(ss: seq<Supplier>, term: string, filter: string): seq<Supplier>
  {
    Filter(ss, MatchesBy(term, filter))
  }

  /** The list keeps the stored order and holds exactly the suppliers whose
      name contains the search (case-folded) and whose status is the
      filter's, any status for 'all'; with no search and 'all' it is the
      whole list. */
  lemma ShownSpec(ss: seq<Supplier>, term: string, filter: string)
    ensures SubseqOf(Shown(ss, term, filter), ss)
    ensures forall s :: s in Shown(ss, term, filter) <==>
      (s in ss && MatchesSearch(s, term) && (filter == "all" || s.status == filter))
    ensures term == "" && filter == "all" ==> Shown(ss, term, filter) == ss
  {
    FilterIsSubseq(ss, MatchesBy(term, filter));
    FilterMembers(ss, MatchesBy(term, filter));
    if term == "" && filter == "all" {
      forall i | 0 <= i < |ss| ensures MatchesBy(term, filter)(ss[i]) {
        ContainsEmpty(Lower(ss[i].name));
      }
      FilterAll(ss, MatchesBy(term, filter));
    }
  }

  function HasStatus(st: string): Supplier -> bool
  {
    (s: Supplier) => s.status == st
  }

  /** The 'Ativos' counter: status 'active' or none at all. */
  predicate CountedActive(s: Supplier)
  {
    s.status == "active" || s.status == ""
  }

  /** 'Ativos' and 'Inativos' add up to 'Total' when every status is
      'active', 'inactive' or missing. */
  lemma CountsAddUp(ss: seq<Supplier>)
    requires forall i :: 0 <= i < |ss| ==> ss[i].status in ["active", "inactive", ""]
    ensures Count(ss, CountedActive) + Count(ss, HasStatus("inactive")) == |ss|
  {
    CountComplement(ss, CountedActive, HasStatus("inactive"));
  }

  /** The 'Ativos' counter exceeds what its own filter lists, with no search,
      by exactly the suppliers saved without a status. */
  lemma ActiveCounterVsFilter(ss: seq<Supplier>)
    ensures Count(ss, CountedActive) == |Shown(ss, "", "active")| + Count(ss, HasStatus(""))
  {
    CountDisjoint(ss, HasStatus("active"), HasStatus(""), CountedActive);
    forall i | 0 <= i < |ss| ensures MatchesBy("", "active")(ss[i]) == HasStatus("active")(ss[i]) {
      ContainsEmpty(Lower(ss[i].name));
    }
    FilterCongruent(ss, MatchesBy("", "active"), HasStatus("active"));
  }

  // -------------------------------------------------------------- the form

  datatype SupplierForm = SupplierForm(
    name: string, category: string, contact: string, email: string, phone: string, status: string)

  function BlankForm(): SupplierForm
  {
    SupplierForm("", "Insumos", "", "", "", "active")
  }

  /** The edit button loads the supplier itself into the form. */
  function FormOf(s: Supplier): SupplierForm
  {
    SupplierForm(s.name, s.category, s.contact, s.email, s.phone, s.status)
  }

  /** {...s, ...supplierForm} */
  function Merged(f: SupplierForm): Supplier -> Supplier
  {
    (s: Supplier) => s.(name := f.name, category := f.category, contact := f.contact, email := f.email,
      phone := f.phone, status := f.status)
  }

  /** The record a creation adds: the form's fields under the clock's id, with
      status 'active', rating 3 and last order 'N/A'; the fields the form
      lacks are empty. */
  function NewSupplier(f: SupplierForm, c: Clock): Supplier
  {
    Supplier(c.now, f.name, f.category, f.contact, f.email, f.phone, "", "", "", 3, "active", "N/A")
  }

  /** handleSupplierSubmit */
  function Submit(l: Lists, f: SupplierForm, editing: Option<int>, c: Clock): Lists
  {
    if Editing(editing) then
      l.(suppliers := IdLists.Update(l.suppliers, SupplierId, editing.value, Merged(f)),
        activities := LogActivity(l.activities, Activity(c.now, "Editou fornecedor", f.name, c.iso, "neutral")))
    else
      l.(suppliers := [NewSupplier(f, c)] + l.suppliers,
        activities := LogActivity(l.activities, Activity(c.now, "Adicionou fornecedor", f.name, c.iso, "neutral")))
  }

  /** A new supplier goes in front, active whatever status the form holds,
      rated 3 with no last order; the rest of the list is kept. */
  lemma SubmitCreates(l: Lists, f: SupplierForm, editing: Option<int>, c: Clock)
    requires !Editing(editing)
    ensures var r := Submit(l, f, editing, c).suppliers;
      |r| == |l.suppliers| + 1 && r[1..] == l.suppliers && r[0].id == c.now &&
      r[0].name == f.name && r[0].category == f.category &&
      r[0].status == "active" && r[0].rating == 3 && r[0].lastOrder == "N/A"
  {
  }

  /** An edit keeps length and ids, changes only the record with the edited
      id, and there only the six form fields. */
  lemma SubmitEdits(l: Lists, f: SupplierForm, editing: Option<int>, c: Clock, i: nat)
    requires Editing(editing) && i < |l.suppliers|
    ensures var r := Submit(l, f, editing, c).suppliers;
      |r| == |l.suppliers| && r[i].id == l.suppliers[i].id &&
      (l.suppliers[i].id != editing.value ==> r[i] == l.suppliers[i]) &&
      (l.suppliers[i].id == editing.value ==> (FormOf(r[i]) == f &&
        r[i].(name := "", category := "", contact := "", email := "", phone := "", status := "") ==
        l.suppliers[i].(name := "", category := "", contact := "", email := "", phone := "", status := "")))
  {
  }

  /** Saving an untouched edit form changes no supplier. */
  lemma EditRoundTrip(l: Lists, x: Supplier, c: Clock)
    requires x in l.suppliers && UniqueIds(l.suppliers, SupplierId) && x.id != 0
    ensures Submit(l, FormOf(x), Some(x.id), c).suppliers == l.suppliers
  {
    var r := Submit(l, FormOf(x), Some(x.id), c).suppliers;
    forall i | 0 <= i < |l.suppliers| ensures r[i] == l.suppliers[i] {
      if l.suppliers[i].id == x.id {
        var k :| 0 <= k < |l.suppliers| && l.suppliers[k] == x;
        assert i == k;
      }
    }
  }

  /** deleteSupplier: no confirmation; the removal is logged when the id is
      stored. */
  function Delete(l: Lists, id: int, c: Clock): Lists
  {
    var kept := IdLists.Remove(l.suppliers, SupplierId, id);
    match IdLists.Find(l.suppliers, SupplierId, id)
      case None => l.(suppliers := kept)
      case Some(x) =>
        l.(suppliers := kept,
          activities := LogActivity(l.activities, Activity(c.now, "Removeu fornecedor", x.name, c.iso, "neutral")))
  }

  /** A delete keeps, in order, exactly the suppliers without the id, and it
      changes anything at all exactly when the id was stored. */
  lemma DeleteSpec(l: Lists, id: int, c: Clock)
    ensures SubseqOf(Delete(l, id, c).suppliers, l.suppliers)
    ensures forall x :: x in Delete(l, id, c).suppliers <==> x in l.suppliers && x.id != id
    ensures (forall i :: 0 <= i < |l.suppliers| ==> l.suppliers[i].id != id) <==> Delete(l, id, c) == l
  {
    IdLists.RemoveSpec(l.suppliers, SupplierId, id);
    if exists i :: 0 <= i < |l.suppliers| && l.suppliers[i].id == id {
      var i :| 0 <= i < |l.suppliers| && l.suppliers[i].id == id;
      assert l.suppliers[i] !in Delete(l, id, c).suppliers;
    }
  }

  // ------------------------------------------------------------ component

  datatype PageState = PageState(
    searchTerm: string, filter: string, isFormOpen: bool, editingId: Option<int>, form: SupplierForm)

  class SuppliersView {
    const store: AppStore
    var searchTerm: string
    var filter: string
    var isFormOpen: bool
    var editingId: Option<int>
    var form: SupplierForm

    function Page(): PageState
      reads this
    {
      PageState(searchTerm, filter, isFormOpen, editingId, form)
    }

    constructor (store: AppStore)
      ensures this.store == store
      ensures Page() == PageState("", "all", false, None, BlankForm())
    {
      this.store := store;
      searchTerm, filter, isFormOpen, editingId, form := "", "all", false, None, BlankForm();
    }

    /** filteredSuppliers over the store's list. */
    function ShownSuppliers(): seq<Supplier>
      reads this, store
    {
      Shown(store.suppliers, searchTerm, filter)
    }

    method SetSearch(term: string)
      modifies this
      ensures Page() == old(Page()).(searchTerm := term)
    {
      searchTerm := term;
    }

    /** The counter cards double as the status filter. */
    method SetFilter(f: string)
      modifies this
      ensures Page() == old(Page()).(filter := f)
    {
      filter := f;
    }

    /** "Novo Fornecedor". */
    method OpenNew()
      modifies this
      ensures Page() == old(Page()).(isFormOpen := true, editingId := None, form := BlankForm())
    {
      isFormOpen, editingId, form := true, None, BlankForm();
    }

    method OpenEdit(x: Supplier)
      modifies this
      ensures Page() == old(Page()).(isFormOpen := true, editingId := Some(x.id), form := FormOf(x))
    {
      editingId, form, isFormOpen := Some(x.id), FormOf(x), true;
    }

    method Close()
      modifies this
      ensures Page() == old(Page()).(isFormOpen := false)
    {
      isFormOpen := false;
    }

    method Enter(f: SupplierForm)
      modifies this
      ensures Page() == old(Page()).(form := f)
    {
      form := f;
    }

    /** handleSupplierSubmit */
    method SubmitForm(c: Clock)
      modifies this, store
      ensures store.Contents() == Submit(old(store.Contents()), old(form), old(editingId), c)
      ensures Page() == old(Page()).(isFormOpen := false, editingId := None, form := BlankForm())
    {
      if Editing(editingId) {
        store.suppliers := IdLists.Update(store.suppliers, SupplierId, editingId.value, Merged(form));
        store.AddActivity("Editou fornecedor", form.name, "neutral", c);
      } else {
        store.suppliers := [NewSupplier(form, c)] + store.suppliers;
        store.AddActivity("Adicionou fornecedor", form.name, "neutral", c);
      }
      isFormOpen, editingId, form := false, None, BlankForm();
    }

    /** deleteSupplier */
    method DeleteSupplier(id: int, c: Clock)
      modifies store
      ensures store.Contents() == Delete(old(store.Contents()), id, c)
    {
      var x := IdLists.Find(store.suppliers, SupplierId, id);
      if x.Some? {
        store.AddActivity("Removeu fornecedor", x.value.name, "neutral", c);
      }
      store.suppliers := IdLists.Remove(store.suppliers, SupplierId, id);
    }
  }
}
