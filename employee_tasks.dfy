/** The employee task list of the dashboard, kept in the page's state:
    add a trimmed description, delete by id, toggle the done mark by id. */
module EmployeeTasks {
  import opened Common

  datatype Task = Task(id: int, description: string, completed: bool)

  /** The list the page starts with. */
  const InitialTasks: seq<Task> := [
    Task(1, "Check water quality", false),
    Task(2, "Clean water tanks", true),
    Task(3, "Restock bottles", false)
  ]

  /** The list and the text of the input box. */
  datatype Board = Board(tasks: seq<Task>, input: string)

  /** `handleAddTask` as written: a blank input changes nothing; otherwise
      the trimmed text is appended under id `length + 1` and the input is
      cleared. */
  function AddTask(b: Board): (r: Board)
    ensures IsBlank(b.input) ==> r == b
    ensures !IsBlank(b.input) ==> r == Board(b.tasks + [Task(|b.tasks| + 1, Trim(b.input), false)], "")
  {
    TrimEmptyIffBlank(b.input);
    if Trim(b.input) != "" then Board(b.tasks + [Task(|b.tasks| + 1, Trim(b.input), false)], "")
    else b
  }

  /** `handleDeleteTask`: the tasks with another id, in order. */
  function DeleteTask(tasks: seq<Task>, id: int): (r: seq<Task>)
    ensures forall t :: t in r <==> t in tasks && t.id != id
    ensures |r| <= |tasks|
  {
    Filter(tasks, (t: Task) => t.id != id)
  }

  /** `handleToggleComplete`: the tasks with that id flip their mark. */
  function ToggleComplete(tasks: seq<Task>, id: int): (r: seq<Task>)
    ensures |r| == |tasks|
    ensures forall i :: 0 <= i < |tasks| ==>
              r[i].id == tasks[i].id && r[i].description == tasks[i].description
              && r[i].completed == (if tasks[i].id == id then !tasks[i].completed else tasks[i].completed)
  {
    seq(|tasks|, i requires 0 <= i < |tasks| =>
          if tasks[i].id == id then tasks[i].(completed := !tasks[i].completed) else tasks[i])
  }

  /** Toggling the same id twice gives back the list. */
  lemma ToggleTwice(tasks: seq<Task>, id: int)
    ensures ToggleComplete(ToggleComplete(tasks, id), id) == tasks
  {
    var r := ToggleComplete(ToggleComplete(tasks, id), id);
    assert forall i :: 0 <= i < |tasks| ==> r[i] == tasks[i];
  }

  /** Deleting an id that no task has changes nothing; deleting keeps the
      remaining tasks in their order. */
  lemma DeleteKeepsOrder(tasks: seq<Task>, id: int, rank: Task -> int)
    requires forall i, j :: 0 <= i < j < |tasks| ==> rank(tasks[i]) < rank(tasks[j])
    ensures forall i, j :: 0 <= i < j < |DeleteTask(tasks, id)| ==>
              rank(DeleteTask(tasks, id)[i]) < rank(DeleteTask(tasks, id)[j])
  {
    FilterKeepsIncreasing(tasks, (t: Task) => t.id != id, rank);
  }

  lemma DeleteAbsent(tasks: seq<Task>, id: int)
    requires forall i :: 0 <= i < |tasks| ==> tasks[i].id != id
    ensures DeleteTask(tasks, id) == tasks
  {
    FilterAll(tasks, (t: Task) => t.id != id);
  }

  predicate DistinctIds(tasks: seq<Task>)
  {
    forall i, j :: 0 <= i < j < |tasks| ==> tasks[i].id != tasks[j].id
  }

  /** The length-based id collides after a deletion: when the ids are
      1..n with n >= 2, deleting task 1 and adding a task gives the new
      task the id n of the last old one, and toggling that id flips both. */
  lemma AddAfterDeleteDuplicatesId(tasks: seq<Task>, input: string)
    requires |tasks| >= 2 && !IsBlank(input)
    requires forall i :: 0 <= i < |tasks| ==> tasks[i].id == i + 1
    ensures var after := AddTask(Board(DeleteTask(tasks, 1), input)).tasks;
            |after| == |tasks| && after[|tasks| - 2].id == after[|tasks| - 1].id
            && !DistinctIds(after)
  {
    DeleteFirstId(tasks);
    var after := AddTask(Board(tasks[1..], input)).tasks;
    assert after[|tasks| - 2] == tasks[|tasks| - 1];
  }

  lemma DeleteFirstId(tasks: seq<Task>)
    requires |tasks| >= 1
    requires forall i :: 0 <= i < |tasks| ==> tasks[i].id == i + 1
    ensures DeleteTask(tasks, 1) == tasks[1..]
  {
    DeleteOnlyFirst(tasks, 1);
  }

  lemma {:induction false} DeleteOnlyFirst(tasks: seq<Task>, id: int)
    requires |tasks| >= 1 && tasks[0].id == id
    requires forall i :: 1 <= i < |tasks| ==> tasks[i].id != id
    ensures DeleteTask(tasks, id) == tasks[1..]
  {
    if |tasks| > 1 {
      var init := tasks[..|tasks| - 1];
      DeleteOnlyFirst(init, id);
      assert init[1..] + [tasks[|tasks| - 1]] == tasks[1..];
    }
  }

  /** The page's own starting list runs into it. */
  lemma InitialListCollides()
    ensures !DistinctIds(AddTask(Board(DeleteTask(InitialTasks, 1), "Fill tanks")).tasks)
  {
    assert !IsSpace("Fill tanks"[0]);
    AddAfterDeleteDuplicatesId(InitialTasks, "Fill tanks");
  }

  /** The next id as intended: one more than the largest id in use. */
  function NextId(tasks: seq<Task>): (n: int)
    ensures forall i :: 0 <= i < |tasks| ==> tasks[i].id < n
  {
    if tasks == [] then 1
    else
      var m := NextId(tasks[..|tasks| - 1]);
      if tasks[|tasks| - 1].id + 1 > m then tasks[|tasks| - 1].id + 1 else m
  }

  /** `handleAddTask` with an id no task has. */
  function AddTaskFixed(b: Board): (r: Board)
    ensures IsBlank(b.input) ==> r == b
    ensures !IsBlank(b.input) ==> r == Board(b.tasks + [Task(NextId(b.tasks), Trim(b.input), false)], "")
  {
    TrimEmptyIffBlank(b.input);
    if Trim(b.input) != "" then Board(b.tasks + [Task(NextId(b.tasks), Trim(b.input), false)], "")
    else b
  }

  /** With the corrected add, ids stay distinct through every operation,
      so delete and toggle each touch at most one task. */
  lemma FixedKeepsIdsDistinct(tasks: seq<Task>, input: string, id: int)
    requires DistinctIds(tasks)
    ensures DistinctIds(AddTaskFixed(Board(tasks, input)).tasks)
    ensures DistinctIds(DeleteTask(tasks, id))
    ensures DistinctIds(ToggleComplete(tasks, id))
  {
    AddFixedKeepsDistinct(tasks, input);
    DeleteKeepsDistinct(tasks, id);
    ToggleKeepsDistinct(tasks, id);
  }

  lemma AddFixedKeepsDistinct(tasks: seq<Task>, input: string)
    requires DistinctIds(tasks)
    ensures DistinctIds(AddTaskFixed(Board(tasks, input)).tasks)
  {
    var after := AddTaskFixed(Board(tasks, input)).tasks;
    if !IsBlank(input) {
      assert forall i :: 0 <= i < |tasks| ==> after[i] == tasks[i];
    }
  }

  lemma ToggleKeepsDistinct(tasks: seq<Task>, id: int)
    requires DistinctIds(tasks)
    ensures DistinctIds(ToggleComplete(tasks, id))
  {
  }

  lemma {:induction false} DeleteKeepsDistinct(tasks: seq<Task>, id: int)
    requires DistinctIds(tasks)
    ensures DistinctIds(DeleteTask(tasks, id))
  {
    if tasks != [] {
      var init := tasks[..|tasks| - 1];
      var last := tasks[|tasks| - 1];
      DeleteKeepsDistinct(init, id);
      var r0 := DeleteTask(init, id);
      forall i | 0 <= i < |r0| ensures r0[i].id != last.id {
        assert r0[i] in init;
      }
    }
  }
}
