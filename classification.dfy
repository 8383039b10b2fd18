/** Classifications (models/classification.py): a label and a 1-10 priority given
    to one message, and the request and response records of a classification batch. */
module ClassificationModel {
  import opened Wrappers
  import opened Basics

  datatype Label = Todo | Followup | Noise

  function LabelValue(l: Label): string
  {
    match l
    case Todo => "todo"
    case Followup => "followup"
    case Noise => "noise"
  }

  /** Validation of a label given as a string: exactly the three enum values are accepted. */
  function ParseLabel(s: string): (r: Option<Label>)
    ensures r.Some? <==> s == "todo" || s == "followup" || s == "noise"
    ensures r.Some? ==> LabelValue(r.value) == s
  {
    if s == "todo" then Some(Todo)
    else if s == "followup" then Some(Followup)
    else if s == "noise" then Some(Noise)
    else None
  }

  lemma LabelRoundTrip(l: Label)
    ensures ParseLabel(LabelValue(l)) == Some(l)
  {
  }

  /** The `ge=1, le=10` constraint on a priority. */
  predicate InPriorityRange(p: int)
  {
    1 <= p <= 10
  }

  /** `ClassificationRead`. */
  datatype Classification = Classification(
    clsId: Uuid,
    msgId: Uuid,
    userId: Option<string>,
    category: Label,
    priority: int,
    createdAt: Timestamp)

  /** `ClassificationRead(...)` with pydantic validation: the record is built iff
      the priority lies in 1..10. */
  function NewClassificationRead(clsId: Uuid, msgId: Uuid, userId: Option<string>, category: Label,
                                 priority: int, createdAt: Timestamp): (r: Result<Classification, string>)
    ensures r.Ok? <==> InPriorityRange(priority)
    ensures r.Ok? ==> r.value.msgId == msgId && r.value.clsId == clsId && r.value.userId == userId
    ensures r.Ok? ==> r.value.category == category && r.value.priority == priority && r.value.createdAt == createdAt
  {
    if InPriorityRange(priority) then Ok(Classification(clsId, msgId, userId, category, priority, createdAt))
    else Err("priority: Input should be between 1 and 10")
  }

  /** `ClassificationUpdate`: both fields optional. */
  datatype ClassificationUpdate = ClassificationUpdate(category: Option<Label>, priority: Option<int>)

  /** `ClassificationUpdate(...)` with validation: a given priority must lie in 1..10. */
  function NewClassificationUpdate(category: Option<Label>, priority: Option<int>): (r: Result<ClassificationUpdate, string>)
    ensures r.Ok? <==> (priority.None? || InPriorityRange(priority.value))
    ensures r.Ok? ==> r.value.category == category && r.value.priority == priority
  {
    if priority.Some? && !InPriorityRange(priority.value) then Err("priority: Input should be between 1 and 10")
    else Ok(ClassificationUpdate(category, priority))
  }

  /** `ClassificationRequest`: the messages to classify, by id or by owning user. */
  datatype ClassificationRequest = ClassificationRequest(messageIds: Option<seq<Uuid>>, userId: Option<string>)

  /** `ClassificationRequest(...)` followed by `model_post_init`: rejected when
      neither a non-empty id list nor a non-empty user id is given. */
  function NewClassificationRequest(messageIds: Option<seq<Uuid>>, userId: Option<string>): (r: Result<ClassificationRequest, string>)
    ensures r.Err? <==> (messageIds.None? || messageIds.value == []) && (userId.None? || userId.value == "")
    ensures r.Ok? ==> r.value == ClassificationRequest(messageIds, userId)
  {
    var noIds := messageIds.None? || messageIds.value == [];
    var noUser := userId.None? || userId.value == "";
    if noIds && noUser then Err("Either 'message_ids' or 'user_id' must be provided")
    else Ok(ClassificationRequest(messageIds, userId))
  }

  /** `ClassificationResponse`. */
  datatype ClassificationResponse = ClassificationResponse(
    classifications: seq<Classification>,
    totalProcessed: int,
    successCount: int,
    errorCount: int)
}
