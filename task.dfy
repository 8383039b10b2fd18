/** Tasks (models/task.py): an open or done to-do item with a 1-10 priority and an
    optional due date, and the request and response records of task generation. */
module TaskModel {
  import opened Wrappers
  import opened Basics
  import opened ClassificationModel

  datatype TaskStatus = Open | Done

  function StatusValue(s: TaskStatus): string
  {
    match s
    case Open => "open"
    case Done => "done"
  }

  /** Validation of a status given as a string: exactly "open" and "done" are accepted. */
  function ParseStatus(s: string): (r: Option<TaskStatus>)
    ensures r.Some? <==> s == "open" || s == "done"
    ensures r.Some? ==> StatusValue(r.value) == s
  {
    if s == "open" then Some(Open) else if s == "done" then Some(Done) else None
  }

  lemma StatusRoundTrip(s: TaskStatus)
    ensures ParseStatus(StatusValue(s)) == Some(s)
  {
  }

  /** `TaskRead`. */
  datatype Task = Task(
    taskId: Uuid,
    userId: Uuid,
    sourceMessageId: Option<Uuid>,
    title: string,
    status: TaskStatus,
    dueDate: Option<Date>,
    priority: int,
    description: Option<string>,
    createdAt: Timestamp)

  /** `TaskRead(...)` with pydantic validation and the declared defaults: the
      record is built iff the priority lies in 1..10; an omitted status is OPEN and
      an omitted source message, due date or description is None. */
  function NewTaskRead(taskId: Uuid, userId: Uuid, title: string, priority: int, createdAt: Timestamp,
                       sourceMessageId: Option<Uuid> := None, status: TaskStatus := Open,
                       dueDate: Option<Date> := None, description: Option<string> := None): (r: Result<Task, string>)
    ensures r.Ok? <==> InPriorityRange(priority)
    ensures r.Ok? ==> r.value.taskId == taskId && r.value.userId == userId && r.value.title == title
    ensures r.Ok? ==> r.value.priority == priority && r.value.status == status && r.value.createdAt == createdAt
    ensures r.Ok? ==> r.value.sourceMessageId == sourceMessageId && r.value.dueDate == dueDate
    ensures r.Ok? ==> r.value.description == description
  {
    if InPriorityRange(priority) then
      Ok(Task(taskId, userId, sourceMessageId, title, status, dueDate, priority, description, createdAt))
    else Err("priority: Input should be between 1 and 10")
  }

  /** A task given only its required fields is open, with no source, due date or description. */
  lemma TaskDefaults(taskId: Uuid, userId: Uuid, title: string, priority: int, createdAt: Timestamp)
    requires InPriorityRange(priority)
    ensures var r := NewTaskRead(taskId, userId, title, priority, createdAt);
            && r.Ok? && r.value.status == Open && r.value.sourceMessageId.None?
            && r.value.dueDate.None? && r.value.description.None?
  {
  }

  /** `TaskUpdate`: every field optional. */
  datatype TaskUpdate = TaskUpdate(
    title: Option<string>,
    description: Option<string>,
    status: Option<TaskStatus>,
    priority: Option<int>,
    dueDate: Option<Date>)

  /** `TaskUpdate(...)` with validation: a given priority must lie in 1..10. */
  function NewTaskUpdate(title: Option<string>, description: Option<string>, status: Option<TaskStatus>,
                         priority: Option<int>, dueDate: Option<Date>): (r: Result<TaskUpdate, string>)
    ensures r.Ok? <==> (priority.None? || InPriorityRange(priority.value))
    ensures r.Ok? ==> r.value == TaskUpdate(title, description, status, priority, dueDate)
  {
    if priority.Some? && !InPriorityRange(priority.value) then Err("priority: Input should be between 1 and 10")
    else Ok(TaskUpdate(title, description, status, priority, dueDate))
  }

  /** `TaskGenerationRequest`. */
  datatype TaskGenerationRequest = TaskGenerationRequest(classificationIds: seq<Uuid>, userId: Uuid)

  /** `TaskGenerationResponse`. */
  datatype TaskGenerationResponse = TaskGenerationResponse(
    tasks: seq<Task>,
    totalGenerated: int,
    successCount: int,
    errorCount: int)
}
