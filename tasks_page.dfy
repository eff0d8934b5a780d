// The tasks page (src/pages/tasks/TasksPage.tsx): the searchable, filterable
// task list, its counters, and the handlers that create, edit, complete,
// reopen and delete a task.

module TasksPage {
  import opened Seqs
  import opened Text
  import opened Records
  import opened AppContext
  import IdLists

  function TaskId(t: Task): int
  {
    t.id
  }

  // ------------------------------------------------------------- the list

  /** The search box, case-folded, in the text or in the assignee. */
  predicate MatchesSearch(t: Task, term: string)
  {
    Contains(Lower(t.text), Lower(term)) || Contains(Lower(t.assignee), Lower(term))
  }

  /** The filter buttons: 'all', 'pending', 'done', or a priority. */
  predicate MatchesFilter(t: Task, filter: string)
  {
    if filter == "all" then true
    else if filter == "pending" then !t.done
    else if filter == "done" then t.done
    else t.priority == filter
  }

  function MatchesBy(term: string, filter: string): Task -> bool
  {
    (t: Task) => MatchesSearch(t, term) && MatchesFilter(t, filter)
  }

  /** filteredTasks */
  function Shown(ts: seq<Task>, term: string, filter: string): seq<Task>
  {
    Filter(ts, MatchesBy(term, filter))
  }

  /** The list keeps the stored order and drops only tasks that fail the search
      or the filter: 'pending' keeps exactly the open ones, 'done' exactly the
      finished ones, a priority exactly the tasks of that priority, and 'all'
      every task; an empty search hides nothing. */
  lemma ShownSpec(ts: seq<Task>, term: string, filter: string)
    ensures SubseqOf(Shown(ts, term, filter), ts)
    ensures forall t :: t in Shown(ts, term, filter) <==> (t in ts && MatchesSearch(t, term) &&
      (filter == "all" || (filter == "pending" && !t.done) || (filter == "done" && t.done) ||
       (filter !in ["all", "pending", "done"] && t.priority == filter)))
    ensures term == "" && filter == "all" ==> Shown(ts, term, filter) == ts
  {
    FilterIsSubseq(ts, MatchesBy(term, filter));
    FilterMembers(ts, MatchesBy(term, filter));
    if term == "" && filter == "all" {
      forall i | 0 <= i < |ts| ensures MatchesBy(term, filter)(ts[i]) {
        ContainsEmpty(Lower(ts[i].text));
      }
      FilterAll(ts, MatchesBy(term, filter));
    }
  }

  // ----------------------------------------------------------- counters

  predicate IsOpen(t: Task)
  {
    !t.done
  }

  predicate IsDone(t: Task)
  {
    t.done
  }

  predicate IsUrgent(t: Task)
  {
    t.priority == "high" && !t.done
  }

  /** 'Pendentes' and 'Concluídas' add up to 'Total', and 'Urgentes' is at
      most 'Pendentes'. */
  lemma CountsSpec(ts: seq<Task>)
    ensures Count(ts, IsOpen) + Count(ts, IsDone) == |ts|
    ensures Count(ts, IsUrgent) <= Count(ts, IsOpen)
  {
    CountComplement(ts, IsDone, IsOpen);
    CountImplies(ts, IsUrgent, IsOpen);
  }

  // -------------------------------------------------------------- the form

  datatype TaskForm = TaskForm(text: string, priority: string, due: string, assignee: string)

  /** The form of "Nova Tarefa" and after a save. */
  function BlankForm(): TaskForm
  {
    TaskForm("", "medium", "", "")
  }

  /** The edit button's prefill. */
  function FormOf(t: Task): TaskForm
  {
    TaskForm(t.text, t.priority, t.due, t.assignee)
  }

  /** {...t, ...formData} */
  function Merged(f: TaskForm): Task -> Task
  {
    (t: Task) => t.(text := f.text, priority := f.priority, due := f.due, assignee := f.assignee)
  }

  /** handleSubmit: the edited task merged with the form, or a new open task in
      front under the clock's id. */
  function Submit(l: Lists, f: TaskForm, editing: Option<int>, c: Clock): Lists
  {
    if Editing(editing) then
      l.(tasks := IdLists.Update(l.tasks, TaskId, editing.value, Merged(f)),
        activities := LogActivity(l.activities, Activity(c.now, "Editou tarefa", f.text, c.iso, "neutral")))
    else
      l.(tasks := [Task(c.now, f.text, f.priority, f.due, false, f.assignee)] + l.tasks,
        activities := LogActivity(l.activities, Activity(c.now, "Adicionou tarefa", f.text, c.iso, "neutral")))
  }

  /** A new task goes in front, not done, carrying the form; the rest of the
      list is kept. */
  lemma SubmitCreates(l: Lists, f: TaskForm, editing: Option<int>, c: Clock)
    requires !Editing(editing)
    ensures var r := Submit(l, f, editing, c).tasks;
      |r| == |l.tasks| + 1 && r[1..] == l.tasks &&
      r[0].id == c.now && !r[0].done && FormOf(r[0]) == f
    ensures Submit(l, f, editing, c) == l.(tasks := Submit(l, f, editing, c).tasks,
      activities := Submit(l, f, editing, c).activities)
  {
  }

  /** An edit changes the form's fields of the task with the edited id only,
      keeping its id and completion. */
  lemma SubmitEdits(l: Lists, f: TaskForm, editing: Option<int>, c: Clock, i: nat)
    requires Editing(editing) && i < |l.tasks|
    ensures var r := Submit(l, f, editing, c).tasks;
      |r| == |l.tasks| && r[i].id == l.tasks[i].id && r[i].done == l.tasks[i].done &&
      (l.tasks[i].id != editing.value ==> r[i] == l.tasks[i]) &&
      (l.tasks[i].id == editing.value ==> FormOf(r[i]) == f)
  {
  }

  /** Saving an untouched edit form changes no task. */
  lemma EditRoundTrip(l: Lists, t: Task, c: Clock)
    requires t in l.tasks && UniqueIds(l.tasks, TaskId) && t.id != 0
    ensures Submit(l, FormOf(t), Some(t.id), c).tasks == l.tasks
  {
    var r := Submit(l, FormOf(t), Some(t.id), c).tasks;
    forall i | 0 <= i < |l.tasks| ensures r[i] == l.tasks[i] {
      if l.tasks[i].id == t.id {
        var k :| 0 <= k < |l.tasks| && l.tasks[k] == t;
        assert i == k;
      }
    }
  }

  // ------------------------------------------------------- toggle, delete

  function Flip(t: Task): Task
  {
    t.(done := !t.done)
  }

  /** toggleTask: a stored id has its task's completion flipped. */
  function Toggle(l: Lists, id: int, c: Clock): Lists
  {
    match IdLists.Find(l.tasks, TaskId, id)
      case None => l
      case Some(task) =>
        l.(tasks := IdLists.Update(l.tasks, TaskId, id, Flip),
          activities := LogActivity(l.activities,
            Activity(c.now, if task.done then "Reabriu tarefa" else "Concluiu tarefa", task.text, c.iso, "neutral")))
  }

  /** Only the tasks with the id change, and only in their completion; an
      unknown id changes nothing. */
  lemma ToggleSpec(l: Lists, id: int, c: Clock, i: nat)
    requires i < |l.tasks|
    ensures |Toggle(l, id, c).tasks| == |l.tasks|
    ensures l.tasks[i].id != id ==> Toggle(l, id, c).tasks[i] == l.tasks[i]
    ensures l.tasks[i].id == id ==> Toggle(l, id, c).tasks[i] == l.tasks[i].(done := !l.tasks[i].done)
    ensures (forall k :: 0 <= k < |l.tasks| ==> l.tasks[k].id != id) ==> Toggle(l, id, c) == l
  {
  }

  /** Toggling a task twice gives the task list back. */
  lemma ToggleTwice(l: Lists, id: int, c1: Clock, c2: Clock)
    ensures Toggle(Toggle(l, id, c1), id, c2).tasks == l.tasks
  {
    var once := Toggle(l, id, c1);
    if IdLists.Find(l.tasks, TaskId, id).Some? {
      assert once.tasks == IdLists.Update(l.tasks, TaskId, id, Flip);
      assert IdLists.Find(once.tasks, TaskId, id).Some? by {
        var k :| 0 <= k < |l.tasks| && l.tasks[k].id == id;
        assert once.tasks[k].id == id;
      }
      assert Toggle(once, id, c2).tasks == IdLists.Update(once.tasks, TaskId, id, Flip);
      FlipTwice(l.tasks, id);
    }
  }

  lemma FlipTwice(ts: seq<Task>, id: int)
    ensures IdLists.Update(IdLists.Update(ts, TaskId, id, Flip), TaskId, id, Flip) == ts
  {
    var once := IdLists.Update(ts, TaskId, id, Flip);
    var twice := IdLists.Update(once, TaskId, id, Flip);
    forall i | 0 <= i < |ts| ensures twice[i] == ts[i] {
      assert TaskId(once[i]) == TaskId(ts[i]);
    }
  }

  /** deleteTask: a stored id, and only once confirmed. */
  function Delete(l: Lists, id: int, confirmed: bool, c: Clock): Lists
  {
    match IdLists.Find(l.tasks, TaskId, id)
      case None => l
      case Some(task) =>
        if !confirmed then l
        else l.(tasks := IdLists.Remove(l.tasks, TaskId, id),
          activities := LogActivity(l.activities, Activity(c.now, "Removeu tarefa", task.text, c.iso, "neutral")))
  }

  /** A confirmed delete removes the tasks with the id and keeps the others in
      order; without confirmation, or for an unknown id, nothing changes. */
  lemma DeleteSpec(l: Lists, id: int, confirmed: bool, c: Clock)
    ensures !confirmed ==> Delete(l, id, confirmed, c) == l
    ensures (forall i :: 0 <= i < |l.tasks| ==> l.tasks[i].id != id) ==> Delete(l, id, confirmed, c) == l
    ensures SubseqOf(Delete(l, id, confirmed, c).tasks, l.tasks)
    ensures confirmed ==> forall t :: t in Delete(l, id, confirmed, c).tasks <==> t in l.tasks && t.id != id
  {
    IdLists.RemoveSpec(l.tasks, TaskId, id);
    if Delete(l, id, confirmed, c) == l {
      SubseqRefl(l.tasks);
    }
  }

  // ------------------------------------------------------------ component

  datatype PageState = PageState(
    searchTerm: string, filter: string, isFormOpen: bool, editingId: Option<int>, form: TaskForm)

  class TasksView {
    const store: AppStore
    var searchTerm: string
    var filter: string
    var isFormOpen: bool
    var editingId: Option<int>
    var form: TaskForm

    function Page(): PageState
      reads this
    {
      PageState(searchTerm, filter, isFormOpen, editingId, form)
    }

    constructor (store: AppStore)
      ensures this.store == store
      ensures Page() == PageState("", "all", false, None, BlankForm())
    {
      this.store := store;
      searchTerm, filter, isFormOpen, editingId, form := "", "all", false, None, BlankForm();
    }

    /** filteredTasks over the store's list. */
    function ShownTasks(): seq<Task>
      reads this, store
    {
      Shown(store.tasks, searchTerm, filter)
    }

    method SetSearch(term: string)
      modifies this
      ensures Page() == old(Page()).(searchTerm := term)
    {
      searchTerm := term;
    }

    method SetFilter(f: string)
      modifies this
      ensures Page() == old(Page()).(filter := f)
    {
      filter := f;
    }

    /** "Nova Tarefa". */
    method OpenNew()
      modifies this
      ensures Page() == old(Page()).(isFormOpen := true, editingId := None, form := BlankForm())
    {
      isFormOpen, editingId, form := true, None, BlankForm();
    }

    /** The edit button of a task. */
    method OpenEdit(t: Task)
      modifies this
      ensures Page() == old(Page()).(isFormOpen := true, editingId := Some(t.id), form := FormOf(t))
    {
      editingId, form, isFormOpen := Some(t.id), FormOf(t), true;
    }

    /** The backdrop, the close button and "Cancelar". */
    method Close()
      modifies this
      ensures Page() == old(Page()).(isFormOpen := false)
    {
      isFormOpen := false;
    }

    method Enter(f: TaskForm)
      modifies this
      ensures Page() == old(Page()).(form := f)
    {
      form := f;
    }

    /** handleSubmit: the list and the log change, the form closes and resets. */
    method SubmitForm(c: Clock)
      modifies this, store
      ensures store.Contents() == Submit(old(store.Contents()), old(form), old(editingId), c)
      ensures Page() == old(Page()).(isFormOpen := false, editingId := None, form := BlankForm())
    {
      if Editing(editingId) {
        store.tasks := IdLists.Update(store.tasks, TaskId, editingId.value, Merged(form));
        store.AddActivity("Editou tarefa", form.text, "neutral", c);
      } else {
        store.tasks := [Task(c.now, form.text, form.priority, form.due, false, form.assignee)] + store.tasks;
        store.AddActivity("Adicionou tarefa", form.text, "neutral", c);
      }
      isFormOpen, editingId, form := false, None, BlankForm();
    }

    /** toggleTask */
    method ToggleTask(id: int, c: Clock)
      modifies store
      ensures store.Contents() == Toggle(old(store.Contents()), id, c)
    {
      var task := IdLists.Find(store.tasks, TaskId, id);
      if task.Some? {
        store.tasks := IdLists.Update(store.tasks, TaskId, id, Flip);
        store.AddActivity(if task.value.done then "Reabriu tarefa" else "Concluiu tarefa", task.value.text, "neutral", c);
      }
    }

    /** deleteTask; confirmed is the answer to window.confirm. */
    method DeleteTask(id: int, confirmed: bool, c: Clock)
      modifies store
      ensures store.Contents() == Delete(old(store.Contents()), id, confirmed, c)
    {
      var task := IdLists.Find(store.tasks, TaskId, id);
      if task.Some? && confirmed {
        store.tasks := IdLists.Remove(store.tasks, TaskId, id);
        store.AddActivity("Removeu tarefa", task.value.text, "neutral", c);
      }
    }
  }
}
