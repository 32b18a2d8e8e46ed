/**
 * The task list page: the rows fetched from `GET /tasks`, the drag-and-drop
 * reorder of those rows, the "mark as completed" action and the status
 * column's filter.
 */
module TasksView {
  import opened Wrappers
  import opened TaskModel
  import opened TaskControllers

  /** A row of the list: a fetched document with its `_id`. */
  datatype Row = Row(id: TaskId, task: Task)

  // ---------------------------------------------------------------------
  // Drag-and-drop reorder
  // ---------------------------------------------------------------------

  /** `items.splice(i, 1)` on a sequence value. */
  function RemoveAt<T>(s: seq<T>, i: nat): seq<T>
    requires i < |s|
  {
    s[..i] + s[i + 1..]
  }

  /** `items.splice(k, 0, x)` on a sequence value (`k` at most the length). */
  function InsertAt<T>(s: seq<T>, k: nat, x: T): seq<T>
    requires k <= |s|
  {
    s[..k] + [x] + s[k..]
  }

  /** Where a dragged row lands: the splice start, clamped to the shortened list. */
  function Landing(n: nat, to: nat): nat {
    if n == 0 then 0 else Min(to, n - 1)
  }

  /** The list after moving the row at `from` to the drop index `to`. */
  function Moved<T>(s: seq<T>, from: nat, to: nat): seq<T>
    requires from < |s|
  {
    InsertAt(RemoveAt(s, from), Landing(|s|, to), s[from])
  }

  /** The drag result of the drag-and-drop library: source index and optional destination index. */
  datatype DropResult = DropResult(source: nat, destination: Option<nat>)

  /** `items.splice(i, 1)` on the first `len` cells of a buffer: shift the tail left by one. */
  method SpliceRemove<T>(a: array<T>, len: nat, i: nat) returns (x: T)
    requires i < len <= a.Length
    modifies a
    ensures x == old(a[i])
    ensures a[..len - 1] == RemoveAt(old(a[..len]), i)
  {
    x := a[i];
    var j := i;
    while j < len - 1
      invariant i <= j <= len - 1
      invariant forall k :: 0 <= k < i ==> a[k] == old(a[k])
      invariant forall k :: i <= k < j ==> a[k] == old(a[k + 1])
      invariant forall k :: j <= k < a.Length ==> a[k] == old(a[k])
    {
      a[j] := a[j + 1];
      j := j + 1;
    }
    assert forall k :: 0 <= k < len - 1 ==> a[..len - 1][k] == RemoveAt(old(a[..len]), i)[k];
  }

  /** `items.splice(k, 0, x)` on the first `len` cells of a buffer; a start past the end appends. */
  method SpliceInsert<T>(a: array<T>, len: nat, k: nat, x: T)
    requires len < a.Length
    modifies a
    ensures a[..len + 1] == InsertAt(old(a[..len]), Min(k, len), x)
  {
    var at := Min(k, len);
    var j := len;
    while j > at
      invariant at <= j <= len
      invariant forall m :: 0 <= m < j ==> a[m] == old(a[m])
      invariant forall m :: j < m <= len ==> a[m] == old(a[m - 1])
    {
      a[j] := a[j - 1];
      j := j - 1;
    }
    a[at] := x;
    assert forall m :: 0 <= m < len + 1 ==> a[..len + 1][m] == InsertAt(old(a[..len]), at, x)[m];
  }

  /**
   * `handleDragEnd`: nothing happens when the row is dropped outside the list;
   * otherwise a copy of the rows is spliced twice and becomes the new list.
   * The rows array itself is not modified (there is no `modifies` clause).
   */
  method HandleDragEnd<T>(tasks: array<T>, result: DropResult) returns (next: seq<T>)
    requires result.source < tasks.Length
    ensures result.destination.None? ==> next == tasks[..]
    ensures result.destination.Some? ==> next == Moved(tasks[..], result.source, result.destination.value)
  {
    if result.destination.None? {
      return tasks[..];
    }
    var rows := tasks[..];
    var items := new T[|rows|](i requires 0 <= i < |rows| => rows[i]);
    assert items[..] == rows;
    var moved := SpliceRemove(items, items.Length, result.source);
    assert moved == rows[result.source];
    ghost var rest := items[..items.Length - 1];
    assert rest == RemoveAt(rows, result.source);
    SpliceInsert(items, items.Length - 1, result.destination.value, moved);
    assert Min(result.destination.value, items.Length - 1) == Landing(|rows|, result.destination.value);
    assert items[..] == items[..items.Length];
    next := items[..];
  }

  /** The same length and the same rows: a reorder is a permutation. */
  lemma {:induction false} MovedIsPermutation<T>(s: seq<T>, from: nat, to: nat)
    requires from < |s|
    ensures |Moved(s, from, to)| == |s|
    ensures multiset(Moved(s, from, to)) == multiset(s)
  {
    var rest := RemoveAt(s, from);
    var k := Landing(|s|, to);
    assert s == s[..from] + [s[from]] + s[from + 1..];
    assert rest == rest[..k] + rest[k..];
    calc {
      multiset(Moved(s, from, to));
      multiset(rest[..k]) + multiset{s[from]} + multiset(rest[k..]);
      multiset(rest) + multiset{s[from]};
      multiset(s[..from]) + multiset(s[from + 1..]) + multiset{s[from]};
      multiset(s);
    }
  }

  /** The dragged row sits at the landing index. */
  lemma MovedLandsAtDestination<T>(s: seq<T>, from: nat, to: nat)
    requires from < |s|
    ensures Landing(|s|, to) < |Moved(s, from, to)|
    ensures Moved(s, from, to)[Landing(|s|, to)] == s[from]
  {
  }

  /** Taking the dragged row out again gives back the other rows in their old order. */
  lemma {:induction false} MovedKeepsOthersInOrder<T>(s: seq<T>, from: nat, to: nat)
    requires from < |s|
    ensures Landing(|s|, to) < |Moved(s, from, to)|
    ensures RemoveAt(Moved(s, from, to), Landing(|s|, to)) == RemoveAt(s, from)
  {
    var rest := RemoveAt(s, from);
    var k := Landing(|s|, to);
    var m := Moved(s, from, to);
    assert m[..k] == rest[..k];
    assert m[k + 1..] == rest[k..];
    assert rest == rest[..k] + rest[k..];
  }

  /** Position by position: rows between the two indices shift by one toward the source. */
  lemma {:induction false} MovedAt<T>(s: seq<T>, from: nat, to: nat, i: nat)
    requires from < |s| && i < |s|
    ensures var k := Landing(|s|, to);
            Moved(s, from, to)[i] ==
              if i == k then s[from]
              else if from <= i < k then s[i + 1]
              else if k < i <= from then s[i - 1]
              else s[i]
  {
    var rest := RemoveAt(s, from);
    var k := Landing(|s|, to);
    if i < k {
      assert Moved(s, from, to)[i] == rest[i];
    } else if i > k {
      assert Moved(s, from, to)[i] == rest[i - 1];
    }
  }

  /** Dropping a row where it was picked up leaves the list as it was. */
  lemma {:induction false} MovedInPlace<T>(s: seq<T>, from: nat)
    requires from < |s|
    ensures Moved(s, from, from) == s
  {
    forall i | 0 <= i < |s|
      ensures Moved(s, from, from)[i] == s[i]
    {
      MovedAt(s, from, from, i);
    }
  }

  // ---------------------------------------------------------------------
  // Mark as completed
  // ---------------------------------------------------------------------

  const MSG_TASK_NOT_FOUND := "Task not found!"

  /** `rows.find(task => task._id === id)`, as the index of the first match. */
  function FindIndex(rows: seq<Row>, id: TaskId): (r: Option<nat>)
    ensures r.Some? ==> r.value < |rows| && rows[r.value].id == id
    ensures r.Some? ==> forall j :: 0 <= j < r.value ==> rows[j].id != id
    ensures r.None? ==> forall j :: 0 <= j < |rows| ==> rows[j].id != id
  {
    if rows == [] then None
    else if rows[0].id == id then Some(0)
    else match FindIndex(rows[1..], id)
      case None => None
      case Some(i) => Some(i + 1)
  }

  /** What the button does: report an error, or send a `PUT /tasks/{id}` with the row as its body. */
  datatype Action = ShowError(msg: string) | SendUpdate(id: TaskId, data: Row)

  /** `handleMarkAsCompleted`: the found row with only its status set to "Completed". */
  function MarkAsCompleted(rows: seq<Row>, id: TaskId): (a: Action)
    ensures a.ShowError? <==> forall j :: 0 <= j < |rows| ==> rows[j].id != id
    ensures a.ShowError? ==> a.msg == MSG_TASK_NOT_FOUND
    ensures a.SendUpdate? ==> a.id == id
    ensures a.SendUpdate? ==>
      exists i ::
        && 0 <= i < |rows| && rows[i].id == id
        && (forall j :: 0 <= j < i ==> rows[j].id != id)
        && a.data == Row(id, rows[i].task.(status := Completed.Label()))
  {
    match FindIndex(rows, id)
    case None => ShowError(MSG_TASK_NOT_FOUND)
    case Some(i) =>
      var found := rows[i];
      SendUpdate(id, found.(task := found.task.(status := Completed.Label())))
  }

  /** The JSON body the handler reads from a row sent as the request data. */
  function RowBody(row: Row): Body {
    Body(Some(row.task.title), Some(row.task.description), Some(row.task.dueDate),
         Some(row.task.status), Some(row.task.user))
  }

  /**
   * Marking a listed task completed, for its owner, rewrites exactly its status
   * in the store; every other field and every other task stays as it was.
   */
  lemma {:induction false} MarkAsCompletedUpdatesOnlyStatus(tasks: map<TaskId, Task>, isObjectId: TaskId -> bool,
                                                            caller: UserId, rows: seq<Row>, id: TaskId)
    requires forall r :: r in rows ==> r.id in tasks && tasks[r.id] == r.task
    requires MarkAsCompleted(rows, id).SendUpdate?
    requires isObjectId(id) && tasks[id].user == caller
    requires Stored(tasks[id])
    requires tasks[id].title != "" && tasks[id].description != "" && tasks[id].dueDate != ""
    ensures var sent := MarkAsCompleted(rows, id).data;
            var done := tasks[id].(status := Completed.Label());
            PutStep(tasks, isObjectId, caller, id, RowBody(sent)) == Step(Ok(OneTask(id, done), MSG_UPDATED), tasks[id := done])
  {
    var i := FindIndex(rows, id).value;
    assert rows[i] in rows;
    var t := tasks[id];
    var done := t.(status := Completed.Label());
    var body := RowBody(MarkAsCompleted(rows, id).data);
    assert body == Body(Some(t.title), Some(t.description), Some(t.dueDate), Some(Completed.Label()), Some(t.user));
    assert UpdateFieldsGiven(body);
    assert ApplyUpdate(t, t.title, t.description, t.dueDate, Completed.Label()) == done by {
      TrimOfTrimmed(t.title);
      TrimOfTrimmed(t.description);
    }
  }

  // ---------------------------------------------------------------------
  // Status filter
  // ---------------------------------------------------------------------

  /** The status column's `onFilter`: `record.status === value`. */
  predicate OnFilter(value: string, record: Row) {
    record.task.status == value
  }

  /** The table keeps the rows the filter accepts (their order: `FilterRowsAppend`). */
  function FilterRows(rows: seq<Row>, value: string): (r: seq<Row>)
    ensures forall x :: x in r <==> x in rows && x.task.status == value
    ensures |r| <= |rows|
  {
    if rows == [] then []
    else if OnFilter(value, rows[0]) then [rows[0]] + FilterRows(rows[1..], value)
    else FilterRows(rows[1..], value)
  }

  /**
   * Filtering distributes over concatenation: with the one-row case this pins
   * the filtered table down completely, so the kept rows stay in the order
   * the list has them, duplicates included.
   */
  lemma {:induction false} FilterRowsAppend(a: seq<Row>, b: seq<Row>, value: string)
    ensures FilterRows(a + b, value) == FilterRows(a, value) + FilterRows(b, value)
    ensures FilterRows([], value) == []
    ensures forall x :: FilterRows([x], value) == if OnFilter(value, x) then [x] else []
  {
    if a != [] {
      assert (a + b)[0] == a[0];
      assert (a + b)[1..] == a[1..] + b;
      FilterRowsAppend(a[1..], b, value);
    } else {
      assert a + b == b;
    }
  }

  /** The rows show exactly the id/document pairs of a table. */
  ghost predicate Mirrors(rows: seq<Row>, m: map<TaskId, Task>) {
    forall x :: x in rows <==> x.id in m && m[x.id] == x.task
  }

  /**
   * Filtering the caller's listed rows by a status shows exactly what the
   * server's filtered query returns for that status.
   */
  lemma {:induction false} ClientFilterMatchesServerFilter(tasks: map<TaskId, Task>, caller: UserId, rows: seq<Row>, value: string)
    requires value != ""
    requires Mirrors(rows, GetTasks(tasks, caller).payload.tasks)
    ensures Mirrors(FilterRows(rows, value), GetFilteredTasks(tasks, caller, Some(value)).payload.tasks)
  {
  }
}
