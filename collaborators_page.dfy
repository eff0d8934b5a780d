// The collaborators page (src/pages/collaborators/CollaboratorsPage.tsx): the
// searchable list with its status counters and the handlers that create,
// edit and delete a collaborator. The salary is typed through maskValue and
// saved as its digits read as cents.

module CollaboratorsPage {
  import opened Seqs
  import opened Text
  import opened Js
  import opened Records
  import opened AppContext
  import opened Format
  import IdLists

  function CollaboratorId(c: Collaborator): int
  {
    c.id
  }

  // ------------------------------------------------------------- the list

  predicate MatchesSearch(c: Collaborator, term: string)
  {
    Contains(Lower(c.name), Lower(term)) || Contains(Lower(c.role), Lower(term))
  }

  function MatchesBy(term: string, filter: string): Collaborator -> bool
  {
    (c: Collaborator) => MatchesSearch(c, term) && (filter == "all" || c.status == filter)
  }

  /** filteredCollaborators */
  function Shown(cs: seq<Collaborator>, term: string, filter: string): seq<Collaborator>
  {
    Filter(cs, MatchesBy(term, filter))
  }

  /** The list keeps the stored order and holds exactly the collaborators
      whose name or role contains the search (case-folded) and whose status
      is the filter's, any status for 'all'; with no search and 'all' it is
      the whole list. */
  lemma ShownSpec(cs: seq<Collaborator>, term: string, filter: string)
    ensures SubseqOf(Shown(cs, term, filter), cs)
    ensures forall c :: c in Shown(cs, term, filter) <==>
      (c in cs && MatchesSearch(c, term) && (filter == "all" || c.status == filter))
    ensures term == "" && filter == "all" ==> Shown(cs, term, filter) == cs
  {
    FilterIsSubseq(cs, MatchesBy(term, filter));
    FilterMembers(cs, MatchesBy(term, filter));
    if term == "" && filter == "all" {
      forall i | 0 <= i < |cs| ensures MatchesBy(term, filter)(cs[i]) {
        ContainsEmpty(Lower(cs[i].name));
      }
      FilterAll(cs, MatchesBy(term, filter));
    }
  }

  function HasStatus(s: string): Collaborator -> bool
  {
    (c: Collaborator) => c.status == s
  }

  predicate ActiveOrVacation(c: Collaborator)
  {
    c.status == "active" || c.status == "vacation"
  }

  /** 'Ativos', 'Férias' and 'Inativos' add up to 'Total' when every status is
      one of the three. */
  lemma CountsAddUp(cs: seq<Collaborator>)
    requires forall i :: 0 <= i < |cs| ==> cs[i].status in ["active", "vacation", "inactive"]
    ensures Count(cs, HasStatus("active")) + Count(cs, HasStatus("vacation")) + Count(cs, HasStatus("inactive")) == |cs|
  {
    CountDisjoint(cs, HasStatus("active"), HasStatus("vacation"), ActiveOrVacation);
    CountComplement(cs, HasStatus("inactive"), ActiveOrVacation);
  }

  // ---------------------------------------------------------------- salary

  /** Number(salary.replace(/\D/g, '')) / 100: the text's digits as cents (no
      digits reads as 0). */
  function SalaryOf(text: string): real
  {
    DigitsValue(Keep(text, IsDigit)) as real / 100.0
  }

  /** A salary typed through maskValue is saved as the typed digits read as
      cents, the same amount parseValue reads from the masked text. */
  lemma SalaryOfMasked(typed: string)
    ensures SalaryOf(MaskValue(Str(typed))) == DigitsValue(DigitsOf(Str(typed))) as real / 100.0
    ensures SalaryOf(MaskValue(Str(typed))) == ParseText(MaskValue(Str(typed)))
  {
    MaskValueRoundTrip(Str(typed));
    var d := DigitsOf(Str(typed));
    if MaskValue(Str(typed)) != "" && d != "" {
      CentsTextDigitsValue(DigitsValue(d));
    }
  }

  /** maskValue of a whole number n of cents is n's cents text. */
  lemma MaskWholeCents(n: nat)
    ensures MaskValue(Number(Fin(n as real))) == CentsText(n)
  {
    NumberToStringNat(n);
    FilterAll(NatToString(n), IsDigit);
    NatToStringValue(n);
  }

  /** As written, the edit button prefills maskValue(c.salary): a whole salary
      comes back a hundred times smaller on an unchanged save. */
  lemma SalaryPrefillShrinks(n: nat)
    ensures SalaryOf(AmountPrefillAsWritten(n as real)) == n as real / 100.0
  {
    MaskWholeCents(n);
    CentsTextDigitsValue(n);
  }

  /** A salary of 3500 is prefilled as "35,00" and saved back as 35. */
  lemma SalaryPrefillCounterexample()
    ensures SalaryOf(AmountPrefillAsWritten(3500.0)) == 35.0
  {
    SalaryPrefillShrinks(3500);
  }

  /** The intended prefill keeps a salary of whole cents. */
  lemma SalaryPrefillRoundTrip(salary: real)
    requires salary >= 0.0 && (salary * 100.0).Floor as real == salary * 100.0
    ensures SalaryOf(AmountPrefill(salary)) == salary
  {
    var k := (salary * 100.0).Floor;
    assert Round(salary * 100.0) == k by {
      assert (k as real + 0.5).Floor == k;
    }
    MaskWholeCents(k);
    CentsTextDigitsValue(k);
  }

  // -------------------------------------------------------------- the form

  datatype CollaboratorForm = CollaboratorForm(
    name: string, role: string, department: string, phone: string, email: string,
    status: string, salary: string, hireDate: string)

  function BlankForm(): CollaboratorForm
  {
    CollaboratorForm("", "Operador de Máquinas", "", "", "", "active", "", "")
  }

  /** The edit button's prefill as written: setFormData({...c, salary: maskValue(c.salary)}). */
  function FormOfAsWritten(c: Collaborator): CollaboratorForm
  {
    CollaboratorForm(c.name, c.role, c.department, c.phone, c.email, c.status,
      AmountPrefillAsWritten(c.salary), c.hireDate)
  }

  /** The prefill the salary mask expects: the salary's cents, masked. */
  function FormOf(c: Collaborator): CollaboratorForm
  {
    FormOfAsWritten(c).(salary := AmountPrefill(c.salary))
  }

  /** {...c, ...newCollaborator} */
  function Merged(f: CollaboratorForm): Collaborator -> Collaborator
  {
    (c: Collaborator) => c.(name := f.name, role := f.role, department := f.department, phone := f.phone,
      email := f.email, status := f.status, salary := SalaryOf(f.salary), hireDate := f.hireDate)
  }

  /** handleSubmit */
  function Submit(l: Lists, f: CollaboratorForm, editing: Option<int>, c: Clock): Lists
  {
    if Editing(editing) then
      l.(collaborators := IdLists.Update(l.collaborators, CollaboratorId, editing.value, Merged(f)),
        activities := LogActivity(l.activities, Activity(c.now, "Editou colaborador", f.name, c.iso, "neutral")))
    else
      l.(collaborators := [Collaborator(c.now, f.name, f.role, f.department, f.phone, f.email, f.status,
          SalaryOf(f.salary), f.hireDate)] + l.collaborators,
        activities := LogActivity(l.activities, Activity(c.now, "Adicionou colaborador", f.name, c.iso, "neutral")))
  }

  /** A new collaborator goes in front under the clock's id, with the form's
      fields and the salary's digits as cents; the rest of the list is kept. */
  lemma SubmitCreates(l: Lists, f: CollaboratorForm, editing: Option<int>, c: Clock)
    requires !Editing(editing)
    ensures var r := Submit(l, f, editing, c).collaborators;
      |r| == |l.collaborators| + 1 && r[1..] == l.collaborators && r[0].id == c.now &&
      r[0].name == f.name && r[0].status == f.status && r[0].salary == SalaryOf(f.salary)
  {
  }

  /** An edit keeps length and ids and changes only the record with the
      edited id. */
  lemma SubmitEdits(l: Lists, f: CollaboratorForm, editing: Option<int>, c: Clock, i: nat)
    requires Editing(editing) && i < |l.collaborators|
    ensures var r := Submit(l, f, editing, c).collaborators;
      |r| == |l.collaborators| && r[i].id == l.collaborators[i].id &&
      (l.collaborators[i].id != editing.value ==> r[i] == l.collaborators[i]) &&
      (l.collaborators[i].id == editing.value ==> r[i].name == f.name && r[i].salary == SalaryOf(f.salary))
  {
  }

  /** As written, an unchanged save of a collaborator earning 3500 leaves them
      earning 35. */
  lemma EditAsWrittenCounterexample(l: Lists, x: Collaborator, c: Clock)
    requires l.collaborators == [x] && x.id != 0 && x.salary == 3500.0
    ensures Submit(l, FormOfAsWritten(x), Some(x.id), c).collaborators == [x.(salary := 35.0)]
  {
    SalaryPrefillCounterexample();
  }

  /** With the intended prefill, saving an untouched edit form changes no
      collaborator whose salary is whole cents. */
  lemma EditRoundTrip(l: Lists, x: Collaborator, c: Clock)
    requires x in l.collaborators && UniqueIds(l.collaborators, CollaboratorId) && x.id != 0
    requires x.salary >= 0.0 && (x.salary * 100.0).Floor as real == x.salary * 100.0
    ensures Submit(l, FormOf(x), Some(x.id), c).collaborators == l.collaborators
  {
    SalaryPrefillRoundTrip(x.salary);
    var r := Submit(l, FormOf(x), Some(x.id), c).collaborators;
    forall i | 0 <= i < |l.collaborators| ensures r[i] == l.collaborators[i] {
      if l.collaborators[i].id == x.id {
        var k :| 0 <= k < |l.collaborators| && l.collaborators[k] == x;
        assert i == k;
      }
    }
  }

  /** handleDelete: a stored id, once confirmed. */
  function Delete(l: Lists, id: int, confirmed: bool, c: Clock): Lists
  {
    match IdLists.Find(l.collaborators, CollaboratorId, id)
      case None => l
      case Some(x) =>
        if !confirmed then l
        else l.(collaborators := IdLists.Remove(l.collaborators, CollaboratorId, id),
          activities := LogActivity(l.activities, Activity(c.now, "Removeu colaborador", x.name, c.iso, "neutral")))
  }

  /** A confirmed delete keeps, in order, exactly the collaborators without the
      id; an unconfirmed one or an unknown id changes nothing. */
  lemma DeleteSpec(l: Lists, id: int, confirmed: bool, c: Clock)
    ensures !confirmed ==> Delete(l, id, confirmed, c) == l
    ensures (forall i :: 0 <= i < |l.collaborators| ==> l.collaborators[i].id != id) ==> Delete(l, id, confirmed, c) == l
    ensures SubseqOf(Delete(l, id, confirmed, c).collaborators, l.collaborators)
    ensures confirmed ==> forall x :: x in Delete(l, id, confirmed, c).collaborators <==> x in l.collaborators && x.id != id
  {
    IdLists.RemoveSpec(l.collaborators, CollaboratorId, id);
    if Delete(l, id, confirmed, c) == l {
      SubseqRefl(l.collaborators);
    }
  }

  // ------------------------------------------------------------ component

  datatype PageState = PageState(
    searchTerm: string, filter: string, isFormOpen: bool, editingId: Option<int>, form: CollaboratorForm)

  class CollaboratorsView {
    const store: AppStore
    var searchTerm: string
    var filter: string
    var isFormOpen: bool
    var editingId: Option<int>
    var form: CollaboratorForm

    function Page(): PageState
      reads this
    {
      PageState(searchTerm, filter, isFormOpen, editingId, form)
    }

    constructor (store: AppStore)
      ensures this.store == store
      ensures Page() == PageState("", "all", false, None, BlankForm())
    {
      this.store := store;
      searchTerm, filter, isFormOpen, editingId, form := "", "all", false, None, BlankForm();
    }

    /** filteredCollaborators over the store's list. */
    function ShownCollaborators(): seq<Collaborator>
      reads this, store
    {
      Shown(store.collaborators, searchTerm, filter)
    }

    method SetSearch(term: string)
      modifies this
      ensures Page() == old(Page()).(searchTerm := term)
    {
      searchTerm := term;
    }

    /** The counter cards double as the status filter. */
    method SetFilter(f: string)
      modifies this
      ensures Page() == old(Page()).(filter := f)
    {
      filter := f;
    }

    /** "Novo Colaborador". */
    method OpenNew()
      modifies this
      ensures Page() == old(Page()).(isFormOpen := true, editingId := None, form := BlankForm())
    {
      isFormOpen, editingId, form := true, None, BlankForm();
    }

    /** The edit button, with the salary prefilled as written. */
    method OpenEdit(x: Collaborator)
      modifies this
      ensures Page() == old(Page()).(isFormOpen := true, editingId := Some(x.id), form := FormOfAsWritten(x))
    {
      editingId, form, isFormOpen := Some(x.id), FormOfAsWritten(x), true;
    }

    method Close()
      modifies this
      ensures Page() == old(Page()).(isFormOpen := false)
    {
      isFormOpen := false;
    }

    /** Any field but the salary. */
    method Enter(f: CollaboratorForm)
      modifies this
      ensures Page() == old(Page()).(form := f.(salary := old(form.salary)))
    {
      form := f.(salary := form.salary);
    }

    /** The salary input runs every keystroke through maskValue. */
    method EnterSalary(typed: string)
      modifies this
      ensures Page() == old(Page()).(form := old(form).(salary := MaskValue(Str(typed))))
    {
      form := form.(salary := MaskValue(Str(typed)));
    }

    /** handleSubmit */
    method SubmitForm(c: Clock)
      modifies this, store
      ensures store.Contents() == Submit(old(store.Contents()), old(form), old(editingId), c)
      ensures Page() == old(Page()).(isFormOpen := false, editingId := None, form := BlankForm())
    {
      if Editing(editingId) {
        store.collaborators := IdLists.Update(store.collaborators, CollaboratorId, editingId.value, Merged(form));
        store.AddActivity("Editou colaborador", form.name, "neutral", c);
      } else {
        store.collaborators := [Collaborator(c.now, form.name, form.role, form.department, form.phone, form.email,
          form.status, SalaryOf(form.salary), form.hireDate)] + store.collaborators;
        store.AddActivity("Adicionou colaborador", form.name, "neutral", c);
      }
      isFormOpen, editingId, form := false, None, BlankForm();
    }

    /** handleDelete; confirmed is the answer to window.confirm. */
    method DeleteCollaborator(id: int, confirmed: bool, c: Clock)
      modifies store
      ensures store.Contents() == Delete(old(store.Contents()), id, confirmed, c)
    {
      var x := IdLists.Find(store.collaborators, CollaboratorId, id);
      if x.Some? && confirmed {
        store.AddActivity("Removeu colaborador", x.value.name, "neutral", c);
        store.collaborators := IdLists.Remove(store.collaborators, CollaboratorId, id);
      }
    }
  }
}
