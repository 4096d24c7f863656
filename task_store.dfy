/**
 * The task store: one list of tasks kept in ascending `order`. Each backend
 * round trip is an input (the row it returned, or an error); the user id
 * matters only to the backend and is left out.
 */
module TaskStore {
  import opened Wrappers
  import opened TaskStatus

  /** A stored task. `order` is a JavaScript number; it is modelled as a real. */
  datatype TaskItem = TaskItem(id: string, title: string, content: Option<string>, status: Status,
                               startDate: string, endDate: Option<string>, order: real,
                               createdAt: string, updatedAt: string)

  /** The fields a caller passes to `addTask`; its `order` is replaced by the store. */
  datatype NewTask = NewTask(title: string, content: Option<string>, status: Status,
                             startDate: string, endDate: Option<string>, order: real)

  /** The fields the backend fills in on insert. */
  datatype Stamp = Stamp(id: string, createdAt: string, updatedAt: string)

  // ---------------------------------------------------------------------------
  // The list operations

  predicate Sorted(s: seq<TaskItem>)
  {
    forall i, j :: 0 <= i < j < |s| ==> s[i].order <= s[j].order
  }

  /** `Math.max(...orders)`, or 0 for no tasks. */
  function MaxOrder(s: seq<TaskItem>): (r: real)
    ensures forall i :: 0 <= i < |s| ==> s[i].order <= r
    ensures |s| == 0 ==> r == 0.0
    ensures |s| > 0 ==> exists i :: 0 <= i < |s| && s[i].order == r
  {
    if |s| == 0 then 0.0
    else if |s| == 1 then s[0].order
    else
      var m := MaxOrder(s[1..]);
      assert forall i :: 1 <= i < |s| ==> s[i] == s[1..][i - 1];
      if s[0].order >= m then s[0].order else m
  }

  /** The order a new task gets: above every stored order, 1 for an empty list. */
  function NextOrder(s: seq<TaskItem>): (r: real)
    ensures forall i :: 0 <= i < |s| ==> s[i].order < r
    ensures |s| == 0 ==> r == 1.0
  {
    MaxOrder(s) + 1.0
  }

  /** The list with every row whose id is `id` replaced by `row`, positions kept. */
  function ReplaceById(s: seq<TaskItem>, id: string, row: TaskItem): (r: seq<TaskItem>)
    ensures |r| == |s|
    ensures forall i :: 0 <= i < |s| ==> r[i] == if s[i].id == id then row else s[i]
  {
    seq(|s|, i requires 0 <= i < |s| => if s[i].id == id then row else s[i])
  }

  /** The list without the rows whose id is `id`, the others kept in order. */
  function RemoveById(s: seq<TaskItem>, id: string): (r: seq<TaskItem>)
    ensures |r| <= |s|
  {
    if |s| == 0 then []
    else
      var rest := RemoveById(s[1..], id);
      assert s == [s[0]] + s[1..];
      if s[0].id == id then rest else [s[0]] + rest
  }

  /** Exactly the entries with that id go: every other entry keeps its multiplicity. */
  lemma {:induction false} RemoveCounts(s: seq<TaskItem>, id: string)
    ensures forall t :: multiset(RemoveById(s, id))[t] == if t.id == id then 0 else multiset(s)[t]
    ensures forall t :: t in RemoveById(s, id) <==> t in s && t.id != id
  {
    if |s| > 0 {
      RemoveCounts(s[1..], id);
      assert s == [s[0]] + s[1..];
    }
  }

  /** Removing from a concatenation removes from each part: the kept tasks stay in their relative order. */
  lemma {:induction false} RemoveConcat(a: seq<TaskItem>, b: seq<TaskItem>, id: string)
    ensures RemoveById(a + b, id) == RemoveById(a, id) + RemoveById(b, id)
  {
    if |a| > 0 {
      var h, t := a[0], a[1..];
      assert a == [h] + t;
      assert a + b == [h] + (t + b);
      RemoveConcat(t, b, id);
      RemoveByIdCons(h, t + b, id);
      RemoveByIdCons(h, t, id);
    } else {
      assert a + b == b;
    }
  }

  lemma RemoveByIdCons(x: TaskItem, a: seq<TaskItem>, id: string)
    ensures RemoveById([x] + a, id) == (if x.id == id then [] else [x]) + RemoveById(a, id)
  {
    assert ([x] + a)[1..] == a;
  }

  /** Removing keeps a sorted list sorted. */
  lemma {:induction false} RemoveKeepsSorted(s: seq<TaskItem>, id: string)
    requires Sorted(s)
    ensures Sorted(RemoveById(s, id))
  {
    if |s| > 0 {
      var tail := s[1..];
      SortedTail(s);
      RemoveKeepsSorted(tail, id);
      var rest := RemoveById(tail, id);
      RemoveCounts(tail, id);
      if s[0].id != id {
        assert RemoveById(s, id) == [s[0]] + rest;
        forall j | 0 <= j < |rest| ensures s[0].order <= rest[j].order {
          assert rest[j] in tail;
        }
      }
    }
  }

  /** The tail of a sorted list is sorted, and its head comes no later than any task of it. */
  lemma SortedTail(s: seq<TaskItem>)
    requires Sorted(s) && |s| > 0
    ensures Sorted(s[1..])
    ensures forall t :: t in s[1..] ==> s[0].order <= t.order
  {
    var tail := s[1..];
    forall i, j | 0 <= i < j < |tail| ensures tail[i].order <= tail[j].order {
      assert tail[i] == s[i + 1] && tail[j] == s[j + 1];
    }
    forall t | t in tail ensures s[0].order <= t.order {
      var k :| 0 <= k < |tail| && tail[k] == t;
      assert s[k + 1] == t;
    }
  }

  /** Stable insertion of `x` after every task whose order is at most its own. */
  function Insert(x: TaskItem, t: seq<TaskItem>): (r: seq<TaskItem>)
    ensures |r| == |t| + 1
  {
    if |t| == 0 then [x]
    else if x.order < t[0].order then [x] + t
    else [t[0]] + Insert(x, t[1..])
  }

  /** Insertion adds exactly `x`. */
  lemma {:induction false} InsertPermutes(x: TaskItem, t: seq<TaskItem>)
    ensures multiset(Insert(x, t)) == multiset(t) + multiset{x}
  {
    if |t| > 0 && x.order >= t[0].order {
      InsertPermutes(x, t[1..]);
      assert t == [t[0]] + t[1..];
    }
  }

  lemma {:induction false} InsertSorted(x: TaskItem, t: seq<TaskItem>)
    requires Sorted(t)
    ensures Sorted(Insert(x, t))
  {
    if |t| > 0 && x.order >= t[0].order {
      SortedTail(t);
      InsertSorted(x, t[1..]);
      InsertPermutes(x, t[1..]);
      assert Insert(x, t) == [t[0]] + Insert(x, t[1..]);
      ConsSorted(t[0], x, t[1..], Insert(x, t[1..]));
    }
  }

  /** A head no later than `x` and than every task of `tail` keeps a sorted insertion result sorted. */
  lemma ConsSorted(head: TaskItem, x: TaskItem, tail: seq<TaskItem>, rest: seq<TaskItem>)
    requires head.order <= x.order && forall t :: t in tail ==> head.order <= t.order
    requires Sorted(rest) && multiset(rest) == multiset(tail) + multiset{x}
    ensures Sorted([head] + rest)
  {
    forall y | y in rest ensures head.order <= y.order {
      assert y in multiset(rest);
      assert y == x || y in multiset(tail);
    }
    var r := [head] + rest;
    forall i, j | 0 <= i < j < |r| ensures r[i].order <= r[j].order {
      assert r[j] == rest[j - 1];
      if i > 0 {
        assert r[i] == rest[i - 1];
      } else {
        assert rest[j - 1] in rest;
      }
    }
  }

  /** `[...].sort((a, b) => a.order - b.order)`: JavaScript's sort is stable, so this is an insertion sort. */
  function SortByOrder(s: seq<TaskItem>): (r: seq<TaskItem>)
    ensures |r| == |s|
  {
    if |s| == 0 then []
    else Insert(s[|s| - 1], SortByOrder(s[..|s| - 1]))
  }

  /** Sorting is a permutation. */
  lemma {:induction false} SortPermutes(s: seq<TaskItem>)
    ensures multiset(SortByOrder(s)) == multiset(s)
  {
    if |s| > 0 {
      var init := s[..|s| - 1];
      SortPermutes(init);
      InsertPermutes(s[|s| - 1], SortByOrder(init));
      SortSnoc(s);
      SnocPermutes(s, SortByOrder(init), SortByOrder(s));
    }
  }

  lemma SnocPermutes(s: seq<TaskItem>, sorted: seq<TaskItem>, r: seq<TaskItem>)
    requires |s| > 0 && multiset(sorted) == multiset(s[..|s| - 1])
    requires multiset(r) == multiset(sorted) + multiset{s[|s| - 1]}
    ensures multiset(r) == multiset(s)
  {
    assert s == s[..|s| - 1] + [s[|s| - 1]];
  }

  /** The sort inserts the last task into the sorted rest. */
  lemma SortSnoc(s: seq<TaskItem>)
    requires |s| > 0
    ensures SortByOrder(s) == Insert(s[|s| - 1], SortByOrder(s[..|s| - 1]))
  {
  }

  lemma {:induction false} SortSorted(s: seq<TaskItem>)
    ensures Sorted(SortByOrder(s))
  {
    if |s| > 0 {
      SortSorted(s[..|s| - 1]);
      InsertSorted(s[|s| - 1], SortByOrder(s[..|s| - 1]));
    }
  }

  /** The tasks holding a given order, in list order. */
  function WithOrder(s: seq<TaskItem>, k: real): seq<TaskItem>
  {
    if |s| == 0 then [] else (if s[0].order == k then [s[0]] else []) + WithOrder(s[1..], k)
  }

  lemma {:induction false} WithOrderConcat(a: seq<TaskItem>, b: seq<TaskItem>, k: real)
    ensures WithOrder(a + b, k) == WithOrder(a, k) + WithOrder(b, k)
  {
    if |a| > 0 {
      assert (a + b)[1..] == a[1..] + b;
      WithOrderConcat(a[1..], b, k);
    } else {
      assert a + b == b;
    }
  }

  lemma {:induction false} WithOrderAbove(t: seq<TaskItem>, k: real)
    requires forall i :: 0 <= i < |t| ==> k < t[i].order
    ensures WithOrder(t, k) == []
  {
    if |t| > 0 {
      WithOrderAbove(t[1..], k);
    }
  }

  lemma WithOrderSingle(x: TaskItem, k: real)
    ensures WithOrder([x], k) == (if x.order == k then [x] else [])
  {
    assert [x][1..] == [];
  }

  lemma {:induction false} InsertStable(x: TaskItem, t: seq<TaskItem>, k: real)
    requires Sorted(t)
    ensures WithOrder(Insert(x, t), k) == WithOrder(t, k) + (if x.order == k then [x] else [])
  {
    WithOrderSingle(x, k);
    if |t| > 0 && x.order < t[0].order {
      WithOrderConcat([x], t, k);
      if x.order == k {
        WithOrderAbove(t, k);
      }
    } else if |t| > 0 {
      SortedTail(t);
      InsertStable(x, t[1..], k);
      var rest := Insert(x, t[1..]);
      assert Insert(x, t) == [t[0]] + rest;
      WithOrderConcat([t[0]], rest, k);
      WithOrderConcat([t[0]], t[1..], k);
      assert [t[0]] + t[1..] == t;
    }
  }

  /**
   * The sort is stable: the tasks sharing an order appear in the result in the
   * order they had in the input.
   */
  lemma {:induction false} SortStable(s: seq<TaskItem>, k: real)
    ensures WithOrder(SortByOrder(s), k) == WithOrder(s, k)
  {
    if |s| > 0 {
      var init, last := s[..|s| - 1], s[|s| - 1];
      var sorted := SortByOrder(init);
      SortSnoc(s);
      SortSorted(init);
      calc {
        WithOrder(SortByOrder(s), k);
        WithOrder(Insert(last, sorted), k);
        { InsertStable(last, sorted, k); }
        WithOrder(sorted, k) + (if last.order == k then [last] else []);
        { SortStable(init, k); WithOrderSingle(last, k); }
        WithOrder(init, k) + WithOrder([last], k);
        { WithOrderConcat(init, [last], k); }
        WithOrder(init + [last], k);
        { assert init + [last] == s; }
        WithOrder(s, k);
      }
    }
  }

  /** A task placed after every other one by order lands at the end of an already sorted list. */
  lemma {:induction false} InsertLast(x: TaskItem, t: seq<TaskItem>)
    requires forall i :: 0 <= i < |t| ==> t[i].order <= x.order
    ensures Insert(x, t) == t + [x]
  {
    if |t| > 0 {
      InsertLast(x, t[1..]);
      assert [t[0]] + (t[1..] + [x]) == t + [x];
    }
  }

  lemma {:induction false} SortOfSorted(s: seq<TaskItem>)
    requires Sorted(s)
    ensures SortByOrder(s) == s
  {
    if |s| > 0 {
      var init := s[..|s| - 1];
      SortOfSorted(init);
      InsertLast(s[|s| - 1], init);
      assert init + [s[|s| - 1]] == s;
    }
  }

  /** The row `addTask` stores: the caller's fields, the backend's stamp, and the next order. */
  function Added(s: seq<TaskItem>, task: NewTask, stamp: Stamp): (r: TaskItem)
    ensures forall i :: 0 <= i < |s| ==> s[i].order < r.order
  {
    TaskItem(stamp.id, task.title, task.content, task.status, task.startDate, task.endDate,
             NextOrder(s), stamp.createdAt, stamp.updatedAt)
  }

  // ---------------------------------------------------------------------------
  // The store transitions

  function Fetched(s: seq<TaskItem>, userId: string, outcome: Response<Option<seq<TaskItem>>>): (r: seq<TaskItem>)
    ensures userId == "" || outcome.Err? ==> r == s
    ensures userId != "" && outcome.Ok? ==> r == outcome.value.GetOr([])
  {
    if userId == "" then s
    else match outcome
      case Err => s
      case Ok(rows) => rows.GetOr([])
  }

  function TaskAdded(s: seq<TaskItem>, task: NewTask, outcome: Response<Stamp>): seq<TaskItem>
  {
    match outcome
    case Err => s
    case Ok(stamp) => SortByOrder(s + [Added(s, task, stamp)])
  }

  function TaskEdited(s: seq<TaskItem>, id: string, outcome: Response<TaskItem>): seq<TaskItem>
  {
    match outcome
    case Err => s
    case Ok(row) => ReplaceById(s, id, row)
  }

  function TaskDeleted(s: seq<TaskItem>, id: string, failed: bool): seq<TaskItem>
  {
    if failed then s else RemoveById(s, id)
  }

  function TaskDragged(s: seq<TaskItem>, id: string, outcome: Response<TaskItem>): seq<TaskItem>
  {
    match outcome
    case Err => s
    case Ok(row) => SortByOrder(ReplaceById(s, id, row))
  }

  /** A backend error leaves the tasks as they were, in every action. */
  lemma ErrorKeepsTasks(s: seq<TaskItem>, task: NewTask, id: string)
    ensures TaskAdded(s, task, Err) == s && TaskEdited(s, id, Err) == s
    ensures TaskDeleted(s, id, true) == s && TaskDragged(s, id, Err) == s
  {
  }

  /** A successful `addTask` adds exactly the new row, sorted; on a sorted list the row simply goes last. */
  lemma AddTaskSuccess(s: seq<TaskItem>, task: NewTask, stamp: Stamp)
    ensures var r := TaskAdded(s, task, Ok(stamp));
            |r| == |s| + 1 && Sorted(r) && multiset(r) == multiset(s) + multiset{Added(s, task, stamp)}
    ensures Sorted(s) ==> TaskAdded(s, task, Ok(stamp)) == s + [Added(s, task, stamp)]
  {
    var row := Added(s, task, stamp);
    SortSorted(s + [row]);
    SortPermutes(s + [row]);
    if Sorted(s) {
      assert Sorted(s + [row]);
      SortOfSorted(s + [row]);
    }
  }

  /** A successful `dragTask` keeps the length, holds the new row in place of the old one, and is sorted. */
  lemma DragTaskSuccess(s: seq<TaskItem>, id: string, row: TaskItem)
    ensures var r := TaskDragged(s, id, Ok(row));
            |r| == |s| && Sorted(r) && multiset(r) == multiset(ReplaceById(s, id, row))
  {
    SortSorted(ReplaceById(s, id, row));
    SortPermutes(ReplaceById(s, id, row));
  }

  /** A successful `deleteTask` keeps a sorted list sorted. */
  lemma DeleteKeepsSorted(s: seq<TaskItem>, id: string)
    requires Sorted(s)
    ensures Sorted(TaskDeleted(s, id, false))
  {
    RemoveKeepsSorted(s, id);
  }

  // ---------------------------------------------------------------------------
  // The store object

  class TaskList {
    var tasks: seq<TaskItem>

    constructor()
      ensures tasks == []
    {
      tasks := [];
    }

    method FetchTasks(userId: string, outcome: Response<Option<seq<TaskItem>>>)
      modifies this
      ensures tasks == Fetched(old(tasks), userId, outcome)
    {
      if userId == "" {
        return;
      }
      match outcome {
        case Err =>
        case Ok(rows) => tasks := rows.GetOr([]);
      }
    }

    method AddTask(task: NewTask, outcome: Response<Stamp>)
      modifies this
      ensures tasks == TaskAdded(old(tasks), task, outcome)
    {
      var maxOrder := if |tasks| > 0 then MaxOrder(tasks) else 0.0;
      match outcome {
        case Err =>
        case Ok(stamp) =>
          var row := TaskItem(stamp.id, task.title, task.content, task.status, task.startDate, task.endDate,
                              maxOrder + 1.0, stamp.createdAt, stamp.updatedAt);
          tasks := SortByOrder(tasks + [row]);
      }
    }

    method EditTask(id: string, outcome: Response<TaskItem>)
      modifies this
      ensures tasks == TaskEdited(old(tasks), id, outcome)
    {
      match outcome {
        case Err =>
        case Ok(row) => tasks := ReplaceById(tasks, id, row);
      }
    }

    method DeleteTask(id: string, failed: bool)
      modifies this
      ensures tasks == TaskDeleted(old(tasks), id, failed)
    {
      if !failed {
        tasks := RemoveById(tasks, id);
      }
    }

    method DragTask(id: string, outcome: Response<TaskItem>)
      modifies this
      ensures tasks == TaskDragged(old(tasks), id, outcome)
    {
      match outcome {
        case Err =>
        case Ok(row) => tasks := SortByOrder(ReplaceById(tasks, id, row));
      }
    }
  }
}
