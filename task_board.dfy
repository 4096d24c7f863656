/**
 * The task board page: its local list of tasks, the search and three filters,
 * the add/edit form, the status toggle and drag-and-drop reordering. Every
 * handler is a transition on `BoardState`; the `Board` class performs it on
 * its fields. The clock enters as a parameter: `now` for a new task's id, and
 * the two deadline tests as predicates on the end date.
 */
module TaskBoard {
  import opened Wrappers
  import opened Text

  const NotStarted: string := "Не начато"
  const InWork: string := "В работе"
  const Finished: string := "Завершено"
  const MediumPriority: string := "Средний"

  const AllStatuses: string := "Все статусы"
  const AllPriorities: string := "Все приоритеты"
  const AllDeadlines: string := "Все сроки"
  const NearDeadlines: string := "Близкие сроки"
  const Overdue: string := "Просроченные"

  /** Everything the form edits; a task is these fields under an id. */
  datatype TaskFields = TaskFields(name: string, description: string, startDate: string, endDate: string,
                                   priority: string, status: string, assignee: string, chatgpt: string)

  datatype BoardTask = BoardTask(id: int, fields: TaskFields)

  /** The form as `resetForm` leaves it. */
  const EmptyForm: TaskFields := TaskFields("", "", "", "", MediumPriority, NotStarted, "", "")

  datatype Filters = Filters(searchTerm: string, statusFilter: string, priorityFilter: string, deadlineFilter: string)

  const DefaultFilters: Filters := Filters("", AllStatuses, AllPriorities, AllDeadlines)

  /** The component state the handlers change. */
  datatype BoardState = BoardState(tasks: seq<BoardTask>, isModalOpen: bool, selectedTask: Option<BoardTask>,
                                   isDetailView: bool, isFullWidth: bool, editingTask: Option<BoardTask>,
                                   draggedTask: Option<BoardTask>, formData: TaskFields)

  // ---------------------------------------------------------------------------
  // Filtering

  /** The four tests a task must pass to be shown. */
  predicate Matches(task: BoardTask, f: Filters, isNear: string -> bool, isOverdue: string -> bool)
  {
    var q := ToLower(f.searchTerm);
    (Includes(ToLower(task.fields.name), q) || Includes(ToLower(task.fields.description), q))
    && (f.statusFilter == AllStatuses || task.fields.status == f.statusFilter)
    && (f.priorityFilter == AllPriorities || task.fields.priority == f.priorityFilter)
    && (if f.deadlineFilter == NearDeadlines then isNear(task.fields.endDate)
        else if f.deadlineFilter == Overdue then isOverdue(task.fields.endDate)
        else true)
  }

  /** `filteredTasks`: the tasks that pass every test, in list order. */
  function FilteredTasks(tasks: seq<BoardTask>, f: Filters, isNear: string -> bool, isOverdue: string -> bool)
    : (r: seq<BoardTask>)
    ensures |r| <= |tasks|
    ensures forall t :: t in r <==> t in tasks && Matches(t, f, isNear, isOverdue)
  {
    if |tasks| == 0 then []
    else
      var rest := FilteredTasks(tasks[1..], f, isNear, isOverdue);
      assert tasks == [tasks[0]] + tasks[1..];
      if Matches(tasks[0], f, isNear, isOverdue) then [tasks[0]] + rest else rest
  }

  /** Filtering a concatenation filters each part: what is shown keeps its relative order. */
  lemma {:induction false} FilterConcat(a: seq<BoardTask>, b: seq<BoardTask>, f: Filters,
                                        isNear: string -> bool, isOverdue: string -> bool)
    ensures FilteredTasks(a + b, f, isNear, isOverdue) == FilteredTasks(a, f, isNear, isOverdue) + FilteredTasks(b, f, isNear, isOverdue)
  {
    if |a| > 0 {
      assert (a + b)[1..] == a[1..] + b;
      FilterConcat(a[1..], b, f, isNear, isOverdue);
    } else {
      assert a + b == b;
    }
  }

  /** A single task is shown exactly when it passes every test. */
  lemma FilterOne(t: BoardTask, f: Filters, isNear: string -> bool, isOverdue: string -> bool)
    ensures FilteredTasks([t], f, isNear, isOverdue) == if Matches(t, f, isNear, isOverdue) then [t] else []
  {
    assert [t][1..] == [];
  }

  /** With an empty search and every filter at its "all" entry, every task is shown. */
  lemma {:induction false} DefaultFiltersShowAll(tasks: seq<BoardTask>, isNear: string -> bool, isOverdue: string -> bool)
    ensures FilteredTasks(tasks, DefaultFilters, isNear, isOverdue) == tasks
  {
    if |tasks| > 0 {
      DefaultFiltersShowAll(tasks[1..], isNear, isOverdue);
      assert ToLower(DefaultFilters.searchTerm) == "";
      assert Matches(tasks[0], DefaultFilters, isNear, isOverdue);
      assert [tasks[0]] + tasks[1..] == tasks;
    }
  }

  // ---------------------------------------------------------------------------
  // Status toggle

  /** The status after one click: Не начато, В работе, Завершено, and round again. */
  function NextStatus(status: string): (r: string)
    ensures r == NotStarted || r == InWork || r == Finished
  {
    if status == Finished then NotStarted
    else if status == NotStarted then InWork
    else Finished
  }

  /** Three clicks bring each of the three statuses back; any other status joins the cycle after one click. */
  lemma StatusCycle(status: string)
    ensures status == NotStarted || status == InWork || status == Finished ==>
              NextStatus(NextStatus(NextStatus(status))) == status
    ensures NextStatus(status) != status
  {
  }

  function Toggled(t: BoardTask, id: int): BoardTask
  {
    if t.id == id then t.(fields := t.fields.(status := NextStatus(t.fields.status))) else t
  }

  /**
   * The last task with the id, if any: when several tasks share the id, the
   * last `setSelectedTask` call of the `map` is the one that stays.
   */
  function LastWithId(tasks: seq<BoardTask>, id: int): (r: Option<BoardTask>)
    ensures r.Some? <==> exists i :: 0 <= i < |tasks| && tasks[i].id == id
    ensures r.Some? ==> r.value in tasks && r.value.id == id
    ensures forall k :: 0 <= k < |tasks| && tasks[k].id == id && (forall j :: k < j < |tasks| ==> tasks[j].id != id) ==>
              r == Some(tasks[k])
  {
    if |tasks| == 0 then None
    else if tasks[|tasks| - 1].id == id then Some(tasks[|tasks| - 1])
    else
      var r := LastWithId(tasks[..|tasks| - 1], id);
      assert forall i :: 0 <= i < |tasks| - 1 ==> tasks[..|tasks| - 1][i] == tasks[i];
      r
  }

  /** `toggleTaskStatus(id)`: every task with the id moves on one status; an open detail view follows. */
  function StatusToggled(s: BoardState, id: int): (r: BoardState)
    ensures |r.tasks| == |s.tasks|
    ensures forall i :: 0 <= i < |s.tasks| && s.tasks[i].id != id ==> r.tasks[i] == s.tasks[i]
    ensures forall i :: 0 <= i < |s.tasks| && s.tasks[i].id == id ==>
              r.tasks[i].id == id && r.tasks[i].fields == s.tasks[i].fields.(status := NextStatus(s.tasks[i].fields.status))
    ensures r == s.(tasks := r.tasks, selectedTask := r.selectedTask)
    ensures !(s.selectedTask.Some? && s.selectedTask.value.id == id) ==> r.selectedTask == s.selectedTask
    ensures (forall i :: 0 <= i < |s.tasks| ==> s.tasks[i].id != id) ==> r == s
    ensures s.selectedTask.Some? && s.selectedTask.value.id == id ==>
              forall k :: 0 <= k < |s.tasks| && s.tasks[k].id == id && (forall j :: k < j < |s.tasks| ==> s.tasks[j].id != id) ==>
                r.selectedTask == Some(r.tasks[k])
  {
    var tasks := seq(|s.tasks|, i requires 0 <= i < |s.tasks| => Toggled(s.tasks[i], id));
    var last := LastWithId(s.tasks, id);
    var selected := if s.selectedTask.Some? && s.selectedTask.value.id == id && last.Some?
                    then Some(Toggled(last.value, id)) else s.selectedTask;
    s.(tasks := tasks, selectedTask := selected)
  }

  /** Clicking three times restores every task whose status is one of the three. */
  lemma ThreeTogglesRestore(s: BoardState, id: int)
    requires forall i :: 0 <= i < |s.tasks| ==> var st := s.tasks[i].fields.status; st == NotStarted || st == InWork || st == Finished
    ensures StatusToggled(StatusToggled(StatusToggled(s, id), id), id).tasks == s.tasks
  {
    var r := StatusToggled(StatusToggled(StatusToggled(s, id), id), id);
    forall i | 0 <= i < |s.tasks| ensures r.tasks[i] == s.tasks[i] {
      StatusCycle(s.tasks[i].fields.status);
    }
  }

  // ---------------------------------------------------------------------------
  // Drag and drop

  /** `findIndex(task => task.id === id)`: the first position with the id, or -1. */
  function FindIndex(tasks: seq<BoardTask>, id: int): (r: int)
    ensures -1 <= r < |tasks|
    ensures r >= 0 ==> tasks[r].id == id && forall j :: 0 <= j < r ==> tasks[j].id != id
    ensures r == -1 <==> forall j :: 0 <= j < |tasks| ==> tasks[j].id != id
  {
    if |tasks| == 0 then -1
    else if tasks[0].id == id then 0
    else
      var r := FindIndex(tasks[1..], id);
      assert forall j :: 1 <= j < |tasks| ==> tasks[j] == tasks[1..][j - 1];
      if r == -1 then -1 else r + 1
  }

  /**
   * `Array.prototype.splice(start, deleteCount, ...items)` on a copy: a
   * negative start counts from the end, and both start and count are clamped
   * to the list.
   */
  function Splice(s: seq<BoardTask>, start: int, deleteCount: int, items: seq<BoardTask>): (r: seq<BoardTask>)
    ensures var from := if start < 0 then (if |s| + start < 0 then 0 else |s| + start)
                        else (if start > |s| then |s| else start);
            var count := if deleteCount < 0 then 0 else if deleteCount > |s| - from then |s| - from else deleteCount;
            r == s[..from] + items + s[from + count..]
  {
    var from := if start < 0 then (if |s| + start < 0 then 0 else |s| + start)
                else (if start > |s| then |s| else start);
    var count := if deleteCount < 0 then 0 else if deleteCount > |s| - from then |s| - from else deleteCount;
    s[..from] + items + s[from + count..]
  }

  /** The list after dropping `dragged` on `target`: take the dragged task out, put it in at the target's old index. */
  function Reordered(tasks: seq<BoardTask>, dragged: BoardTask, target: BoardTask): seq<BoardTask>
  {
    var draggedIndex := FindIndex(tasks, dragged.id);
    var targetIndex := FindIndex(tasks, target.id);
    Splice(Splice(tasks, draggedIndex, 1, []), targetIndex, 0, [dragged])
  }

  /** `handleDrop(target)`. */
  function Dropped(s: BoardState, target: BoardTask): BoardState
  {
    if s.draggedTask.None? || s.draggedTask.value.id == target.id then s
    else s.(tasks := Reordered(s.tasks, s.draggedTask.value, target), draggedTask := None)
  }

  /** Nothing happens without a dragged task, or when it is dropped on itself. */
  lemma DropNoOp(s: BoardState, target: BoardTask)
    requires s.draggedTask.None? || s.draggedTask.value.id == target.id
    ensures Dropped(s, target) == s
  {
  }

  /**
   * When both tasks are on the board, a drop moves the dragged task to the
   * target's index and keeps every other task in its relative order: the new
   * list is a permutation of the old one.
   */
  lemma DropIsMove(tasks: seq<BoardTask>, dragged: BoardTask, target: BoardTask)
    requires dragged in tasks && dragged == tasks[FindIndex(tasks, dragged.id)]
    requires exists i :: 0 <= i < |tasks| && tasks[i].id == target.id
    ensures var r := Reordered(tasks, dragged, target);
            var di := FindIndex(tasks, dragged.id);
            var ti := FindIndex(tasks, target.id);
            |r| == |tasks| && r[ti] == dragged &&
            r[..ti] + r[ti + 1..] == tasks[..di] + tasks[di + 1..] &&
            multiset(r) == multiset(tasks)
  {
    var di := FindIndex(tasks, dragged.id);
    var ti := FindIndex(tasks, target.id);
    var first := tasks[..di] + tasks[di + 1..];
    assert Splice(tasks, di, 1, []) == first;
    assert Splice(first, ti, 0, [dragged]) == first[..ti] + [dragged] + first[ti..];
    MoveAt(tasks, di, ti);
  }

  /** Taking out position `di` and putting that element in at position `ti`. */
  lemma MoveAt(t: seq<BoardTask>, di: nat, ti: nat)
    requires di < |t| && ti < |t|
    ensures var first := t[..di] + t[di + 1..];
            var r := first[..ti] + [t[di]] + first[ti..];
            |r| == |t| && r[ti] == t[di]
    ensures var first := t[..di] + t[di + 1..];
            var r := first[..ti] + [t[di]] + first[ti..];
            r[..ti] + r[ti + 1..] == first
    ensures var first := t[..di] + t[di + 1..];
            var r := first[..ti] + [t[di]] + first[ti..];
            multiset(r) == multiset(t)
  {
    var first := t[..di] + t[di + 1..];
    var r := first[..ti] + [t[di]] + first[ti..];
    assert r[..ti] == first[..ti];
    assert r[ti + 1..] == first[ti..];
    MovePermutes(t, di, first, ti, r);
  }

  lemma MovePermutes(t: seq<BoardTask>, di: nat, first: seq<BoardTask>, ti: nat, r: seq<BoardTask>)
    requires di < |t| && ti <= |first| && first == t[..di] + t[di + 1..]
    requires r == first[..ti] + [t[di]] + first[ti..]
    ensures multiset(r) == multiset(t)
  {
    CutMultiset(t, di);
    CutMultiset(first, ti);
    assert t[di..] == [t[di]] + t[di + 1..];
    var m := multiset(t[..di]) + multiset(t[di + 1..]);
    assert multiset(first) == m;
    assert multiset(t) == m + multiset{t[di]};
    assert multiset(r) == multiset(first[..ti]) + multiset{t[di]} + multiset(first[ti..]);
  }

  lemma CutMultiset(a: seq<BoardTask>, i: nat)
    requires i <= |a|
    ensures multiset(a[..i]) + multiset(a[i..]) == multiset(a)
  {
    assert a[..i] + a[i..] == a;
  }

  // ---------------------------------------------------------------------------
  // Form, submit, delete, detail view

  /** `closeModal`: the modal shuts, nothing is being edited, the form is reset. */
  function ModalClosed(s: BoardState): (r: BoardState)
    ensures r.formData.priority == MediumPriority && r.formData.status == NotStarted && r.formData.name == ""
    ensures !r.isModalOpen && r.editingTask.None?
    ensures r.tasks == s.tasks && r.selectedTask == s.selectedTask && r.draggedTask == s.draggedTask
  {
    s.(isModalOpen := false, editingTask := None, formData := EmptyForm)
  }

  /** `openModal(task)`: edit the given task, or start a new one from an empty form. */
  function ModalOpened(s: BoardState, task: Option<BoardTask>): (r: BoardState)
    ensures r.isModalOpen && r.editingTask == task && r.tasks == s.tasks
    ensures task.Some? ==> r.formData == task.value.fields
    ensures task.None? ==> r.formData == EmptyForm
  {
    if task.Some? then s.(editingTask := task, formData := task.value.fields, isModalOpen := true)
    else s.(editingTask := None, formData := EmptyForm, isModalOpen := true)
  }

  function DetailOpened(s: BoardState, task: BoardTask): BoardState
  {
    s.(selectedTask := Some(task), isDetailView := true)
  }

  function DetailClosed(s: BoardState): BoardState
  {
    s.(isDetailView := false, selectedTask := None, isFullWidth := false)
  }

  /** `tasks.map(...)` in `handleSubmit`: the edited id gets the form's fields and keeps its id. */
  function WithEdited(tasks: seq<BoardTask>, id: int, form: TaskFields): (r: seq<BoardTask>)
    ensures |r| == |tasks|
    ensures forall i :: 0 <= i < |tasks| ==> r[i] == if tasks[i].id == id then BoardTask(id, form) else tasks[i]
  {
    seq(|tasks|, i requires 0 <= i < |tasks| => if tasks[i].id == id then BoardTask(id, form) else tasks[i])
  }

  /** `handleSubmit`, with `now` standing for `Date.now()`. */
  function Submitted(s: BoardState, now: int): BoardState
  {
    if IsBlank(s.formData.name) then s
    else if s.editingTask.Some? then
      var id := s.editingTask.value.id;
      var selected := if s.selectedTask.Some? && s.selectedTask.value.id == id
                      then Some(BoardTask(id, s.formData)) else s.selectedTask;
      ModalClosed(s.(tasks := WithEdited(s.tasks, id, s.formData), selectedTask := selected))
    else
      ModalClosed(s.(tasks := s.tasks + [BoardTask(now, s.formData)]))
  }

  /** A blank or whitespace-only name submits nothing. */
  lemma BlankSubmitNoOp(s: BoardState, now: int)
    requires IsBlank(s.formData.name)
    ensures Submitted(s, now) == s
  {
  }

  /** Submitting while editing replaces only the edited id; while adding, exactly one task is appended. Both close the form. */
  lemma SubmitEffect(s: BoardState, now: int)
    requires !IsBlank(s.formData.name)
    ensures var r := Submitted(s, now);
            !r.isModalOpen && r.editingTask.None? && r.formData == EmptyForm &&
            (s.editingTask.Some? ==>
               |r.tasks| == |s.tasks| &&
               forall i :: 0 <= i < |s.tasks| ==>
                 (s.tasks[i].id == s.editingTask.value.id ==> r.tasks[i] == BoardTask(s.editingTask.value.id, s.formData)) &&
                 (s.tasks[i].id != s.editingTask.value.id ==> r.tasks[i] == s.tasks[i])) &&
            (s.editingTask.None? ==> r.tasks == s.tasks + [BoardTask(now, s.formData)])
  {
  }

  /** The board without the tasks whose id is `id`, the others kept in order. */
  function WithoutId(tasks: seq<BoardTask>, id: int): (r: seq<BoardTask>)
  {
    if |tasks| == 0 then []
    else
      var rest := WithoutId(tasks[1..], id);
      assert tasks == [tasks[0]] + tasks[1..];
      if tasks[0].id == id then rest else [tasks[0]] + rest
  }

  /** Exactly the entries with that id go: every other entry keeps its multiplicity. */
  lemma {:induction false} WithoutIdCounts(tasks: seq<BoardTask>, id: int)
    ensures forall t :: multiset(WithoutId(tasks, id))[t] == if t.id == id then 0 else multiset(tasks)[t]
    ensures forall t :: t in WithoutId(tasks, id) <==> t in tasks && t.id != id
  {
    if |tasks| > 0 {
      WithoutIdCounts(tasks[1..], id);
      assert tasks == [tasks[0]] + tasks[1..];
    }
  }

  /** `deleteTask(id)`: the open detail view closes when it shows the deleted task. */
  function TaskDeleted(s: BoardState, id: int): (r: BoardState)
    ensures forall t :: t in r.tasks <==> t in s.tasks && t.id != id
    ensures s.selectedTask.Some? && s.selectedTask.value.id == id ==>
              r.selectedTask.None? && !r.isDetailView && !r.isFullWidth
    ensures !(s.selectedTask.Some? && s.selectedTask.value.id == id) ==> r == s.(tasks := r.tasks)
  {
    WithoutIdCounts(s.tasks, id);
    var t := s.(tasks := WithoutId(s.tasks, id));
    if s.selectedTask.Some? && s.selectedTask.value.id == id then DetailClosed(t) else t
  }

  // ---------------------------------------------------------------------------
  // The component

  class Board {
    var tasks: seq<BoardTask>
    var isModalOpen: bool
    var selectedTask: Option<BoardTask>
    var isDetailView: bool
    var isFullWidth: bool
    var editingTask: Option<BoardTask>
    var draggedTask: Option<BoardTask>
    var formData: TaskFields
    var filters: Filters

    function Snapshot(): BoardState
      reads this
    {
      BoardState(tasks, isModalOpen, selectedTask, isDetailView, isFullWidth, editingTask, draggedTask, formData)
    }

    /** The tasks on screen. */
    function Shown(isNear: string -> bool, isOverdue: string -> bool): (r: seq<BoardTask>)
      reads this
      ensures filters == DefaultFilters ==> r == tasks
    {
      DefaultFiltersShowAll(tasks, isNear, isOverdue);
      FilteredTasks(tasks, filters, isNear, isOverdue)
    }

    constructor(initial: seq<BoardTask>)
      ensures Snapshot() == BoardState(initial, false, None, false, false, None, None, EmptyForm)
      ensures filters == DefaultFilters
    {
      tasks := initial;
      isModalOpen, selectedTask, isDetailView, isFullWidth := false, None, false, false;
      editingTask, draggedTask := None, None;
      formData := EmptyForm;
      filters := DefaultFilters;
    }

    method ResetForm()
      modifies this
      ensures Snapshot() == old(Snapshot()).(formData := EmptyForm) && filters == old(filters)
    {
      formData := EmptyForm;
    }

    method OpenModal(task: Option<BoardTask>)
      modifies this
      ensures Snapshot() == ModalOpened(old(Snapshot()), task) && filters == old(filters)
    {
      if task.Some? {
        editingTask := task;
        formData := task.value.fields;
      } else {
        editingTask := None;
        ResetForm();
      }
      isModalOpen := true;
    }

    method CloseModal()
      modifies this
      ensures Snapshot() == ModalClosed(old(Snapshot())) && filters == old(filters)
    {
      isModalOpen := false;
      editingTask := None;
      ResetForm();
    }

    method OpenTaskDetail(task: BoardTask)
      modifies this
      ensures Snapshot() == DetailOpened(old(Snapshot()), task) && filters == old(filters)
    {
      selectedTask := Some(task);
      isDetailView := true;
    }

    method CloseTaskDetail()
      modifies this
      ensures Snapshot() == DetailClosed(old(Snapshot())) && filters == old(filters)
    {
      isDetailView := false;
      selectedTask := None;
      isFullWidth := false;
    }

    method HandleSubmit(now: int)
      modifies this
      ensures Snapshot() == Submitted(old(Snapshot()), now) && filters == old(filters)
    {
      if IsBlank(formData.name) {
        return;
      }
      if editingTask.Some? {
        var id := editingTask.value.id;
        tasks := WithEdited(tasks, id, formData);
        if selectedTask.Some? && selectedTask.value.id == id {
          selectedTask := Some(BoardTask(id, formData));
        }
      } else {
        tasks := tasks + [BoardTask(now, formData)];
      }
      CloseModal();
    }

    method DeleteTask(id: int)
      modifies this
      ensures Snapshot() == TaskDeleted(old(Snapshot()), id) && filters == old(filters)
    {
      tasks := WithoutId(tasks, id);
      if selectedTask.Some? && selectedTask.value.id == id {
        CloseTaskDetail();
      }
    }

    method ToggleTaskStatus(id: int)
      modifies this
      ensures Snapshot() == StatusToggled(old(Snapshot()), id) && filters == old(filters)
    {
      var last := LastWithId(tasks, id);
      if selectedTask.Some? && selectedTask.value.id == id && last.Some? {
        selectedTask := Some(Toggled(last.value, id));
      }
      var current := tasks;
      tasks := seq(|current|, i requires 0 <= i < |current| => Toggled(current[i], id));
    }

    method HandleDragStart(task: BoardTask)
      modifies this
      ensures Snapshot() == old(Snapshot()).(draggedTask := Some(task)) && filters == old(filters)
    {
      draggedTask := Some(task);
    }

    method HandleDrop(target: BoardTask)
      modifies this
      ensures Snapshot() == Dropped(old(Snapshot()), target) && filters == old(filters)
    {
      if draggedTask.None? || draggedTask.value.id == target.id {
        return;
      }
      var dragged := draggedTask.value;
      var draggedIndex := FindIndex(tasks, dragged.id);
      var targetIndex := FindIndex(tasks, target.id);
      var newTasks := tasks;
      newTasks := Splice(newTasks, draggedIndex, 1, []);
      newTasks := Splice(newTasks, targetIndex, 0, [dragged]);
      tasks := newTasks;
      draggedTask := None;
    }

    method SetFilters(f: Filters)
      modifies this
      ensures Snapshot() == old(Snapshot()) && filters == f
    {
      filters := f;
    }
  }
}
