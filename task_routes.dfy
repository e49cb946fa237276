/** The task routes of the API: creating a task checks its title,
    priority, status and due date in that order and inserts it only when
    all pass; updating a task writes whatever the request carries. */
module TaskRoutes {
  import opened Common

  /** A field of the JSON request body. `Other` is any non-string value,
      with its JavaScript truthiness. */
  datatype BodyValue = Missing | Str(s: string) | Other(truthy: bool)

  predicate Truthy(v: BodyValue)
  {
    match v
    case Missing => false
    case Str(s) => s != ""
    case Other(t) => t
  }

  datatype TaskBody = TaskBody(title: BodyValue, description: BodyValue, category: BodyValue,
                               priority: BodyValue, dueDate: BodyValue, assignedTo: BodyValue,
                               progress: BodyValue, status: BodyValue)

  datatype TaskRow = TaskRow(id: int, title: BodyValue, description: BodyValue, category: BodyValue,
                             priority: BodyValue, dueDate: BodyValue, assignedTo: BodyValue,
                             progress: BodyValue, status: BodyValue)

  /** The tasks table and its next auto-increment key. */
  datatype TaskTable = TaskTable(rows: seq<TaskRow>, nextId: int)

  /** The 400 answers of `POST /tasks`. */
  datatype TaskError = TitleInvalid | PriorityInvalid | StatusInvalid | DueDateInvalid

  function Message(e: TaskError): string
  {
    match e
    case TitleInvalid => "Title is required and must be a non-empty string."
    case PriorityInvalid => "Priority is required and must be one of: low, medium, high."
    case StatusInvalid => "Status is required and must be one of: pending, in_progress, completed."
    case DueDateInvalid => "Due date must be a valid date string."
  }

  const ValidPriorities: seq<string> := ["low", "medium", "high"]
  const ValidStatuses: seq<string> := ["pending", "in_progress", "completed"]

  predicate ValidTitle(title: BodyValue)
  {
    title.Str? && title.s != "" && Trim(title.s) != ""
  }

  /** `!v || !allowed.includes(v)` negated: a string among the allowed. */
  predicate OneOf(v: BodyValue, allowed: seq<string>)
  {
    Truthy(v) && v.Str? && v.s in allowed
  }

  /** A due date passes when it is absent (falsy) or `Date.parse` gives a
      number; `parses` stands for `!isNaN(Date.parse(v))`. */
  predicate ValidDueDate(dueDate: BodyValue, parses: BodyValue -> bool)
  {
    !Truthy(dueDate) || parses(dueDate)
  }

  /** The first failing check, if any. */
  function FirstFailure(body: TaskBody, parses: BodyValue -> bool): Option<TaskError>
  {
    if !body.title.Str? || !Truthy(body.title) || Trim(body.title.s) == "" then Some(TitleInvalid)
    else if !Truthy(body.priority) || !(body.priority.Str? && body.priority.s in ValidPriorities) then Some(PriorityInvalid)
    else if !Truthy(body.status) || !(body.status.Str? && body.status.s in ValidStatuses) then Some(StatusInvalid)
    else if Truthy(body.dueDate) && !parses(body.dueDate) then Some(DueDateInvalid)
    else None
  }

  function RowOf(id: int, body: TaskBody): TaskRow
  {
    TaskRow(id, body.title, body.description, body.category, body.priority, body.dueDate,
            body.assignedTo, body.progress, body.status)
  }

  /** `POST /tasks`: the new id and table, or the first failed check. */
  function CreateTask(table: TaskTable, body: TaskBody, parses: BodyValue -> bool): Result<(int, TaskTable), TaskError>
  {
    match FirstFailure(body, parses)
    case Some(e) => Err(e)
    case None => Ok((table.nextId, TaskTable(table.rows + [RowOf(table.nextId, body)], table.nextId + 1)))
  }

  /** A task is created exactly when all four checks pass; the checks run
      in order and the first that fails is answered; a created task is the
      request's fields under the next key, appended to the table. */
  lemma CreateTaskChecks(table: TaskTable, body: TaskBody, parses: BodyValue -> bool)
    ensures CreateTask(table, body, parses).Ok? <==>
              ValidTitle(body.title) && OneOf(body.priority, ValidPriorities)
              && OneOf(body.status, ValidStatuses) && ValidDueDate(body.dueDate, parses)
    ensures CreateTask(table, body, parses) == Err(TitleInvalid) <==> !ValidTitle(body.title)
    ensures CreateTask(table, body, parses) == Err(PriorityInvalid) <==>
              ValidTitle(body.title) && !OneOf(body.priority, ValidPriorities)
    ensures CreateTask(table, body, parses) == Err(StatusInvalid) <==>
              ValidTitle(body.title) && OneOf(body.priority, ValidPriorities) && !OneOf(body.status, ValidStatuses)
    ensures CreateTask(table, body, parses) == Err(DueDateInvalid) <==>
              ValidTitle(body.title) && OneOf(body.priority, ValidPriorities)
              && OneOf(body.status, ValidStatuses) && !ValidDueDate(body.dueDate, parses)
    ensures CreateTask(table, body, parses).Ok? ==>
              CreateTask(table, body, parses).value.0 == table.nextId
              && CreateTask(table, body, parses).value.1.rows == table.rows + [RowOf(table.nextId, body)]
  {
  }

  /** A title made only of white space is refused even though it is a
      non-empty string. */
  lemma BlankTitleRefused(table: TaskTable, body: TaskBody, parses: BodyValue -> bool)
    requires body.title.Str? && IsBlank(body.title.s)
    ensures CreateTask(table, body, parses) == Err(TitleInvalid)
  {
    TrimEmptyIffBlank(body.title.s);
  }

  /** `PUT /tasks/:id`: every row with that id takes all fields of the
      request, checked or not. */
  function UpdateTask(table: TaskTable, id: int, body: TaskBody): (r: TaskTable)
    ensures |r.rows| == |table.rows| && r.nextId == table.nextId
    ensures forall i :: 0 <= i < |table.rows| ==>
              r.rows[i] == if table.rows[i].id == id then RowOf(id, body) else table.rows[i]
  {
    TaskTable(seq(|table.rows|, i requires 0 <= i < |table.rows| =>
                    if table.rows[i].id == id then RowOf(id, body) else table.rows[i]),
              table.nextId)
  }

  /** A request that create refuses is still written by update. */
  lemma UpdateSkipsChecks(table: TaskTable, body: TaskBody, parses: BodyValue -> bool, i: nat)
    requires i < |table.rows|
    requires body.priority == Str("urgent")
    ensures CreateTask(table, body, parses).Err?
    ensures UpdateTask(table, table.rows[i].id, body).rows[i].priority == Str("urgent")
  {
    assert "urgent" != "low" && "urgent" != "medium" && "urgent" != "high";
    assert !OneOf(body.priority, ValidPriorities);
    CreateTaskChecks(table, body, parses);
  }
}
